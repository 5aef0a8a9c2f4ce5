# lettuce core, modelled in Dafny

This project models four parts of the lattice Boltzmann library lettuce and proves properties of
them.

- **Native streaming contributors** (`NativeGenerator`, `NativeStreaming`, `StreamingKernel`).
  These are the "no streaming" and "standard streaming" parts of the native CUDA kernel generator.
  - The generator is a class. Its fields are:
    - a registry of generated fragments;
    - two hook tables, one for the launcher and one for the kernel;
    - the index and write line buffers of the kernel;
    - the Python wrapper lines run before and after the kernel;
    - a ghost trace of the registry and hook calls. Each call records how long the two line buffers were when it was made.
  - Each `generate_*` operation is a method on the generator. It is proved to leave the generator in the state that a pure function computes from the old state.
  - Lemmas about those functions state four things:
    - deduplication, where a second call changes nothing;
    - dependencies first, where every registration, request and hook comes before any emitted line;
    - conditional emission, where a line whose condition is false is not emitted;
    - the buffer-swap line appears once.
  - Emitted kernel lines are tagged values, not text. `StreamingKernel` gives each line its meaning as a step of one iteration of the direction loop at one cell. It proves three things:
    - what the read loop and both write loops read and write;
    - the per-axis periodic wrap rule;
    - how the no-streaming mask behaves.
- **Moment transforms** (`Moments`, on top of `LinearAlgebra` and `Stencils`).
  - The moment tensors of a velocity set.
  - The base transform with its default names.
  - The exact change-of-basis matrices:
    - D1Q3;
    - Dellar's D2Q9;
    - Lallemand and Luo's D2Q9.
  - Name lookup.
  - The two closed-form moment equilibria.
  - Dafny's `real` is exact, so `inverse · matrix = identity` is proved for every basis. The round trip of the transforms follows from it.
- **Boundary index logic** (`Boundary`).
  - Full-way bounce-back.
  - The anti-bounce-back outlet constructor:
    - it validates the direction;
    - it selects the velocities that point along the direction;
    - it builds the `index` and `neighbour` slice lists.
- **Moment-space BGK initialisation** (`BgkInitialization`). It is modelled for one cell: the constructor's momentum lookup, then the relaxation step.
  - The density relaxes with `tau + 1`.
  - Every other moment relaxes with `tau`.
  - The momenta are pinned to `rho * u`.

Modules: `Results` holds the `Result`/`Option` types. `Stencils` holds the D1Q3 and D2Q9 velocity sets. `LinearAlgebra` holds the matrix-vector products and associativity.

## Model

| member | source | states |
|---|---|---|
| NativeStreaming.Name | lettuce/native_generator/_streaming.py:12-15 | the name starts with the class name; a suffix exists exactly when the mask is supported, and it is `M` |
| NativeStreaming.CreateNoStreaming | lettuce/native_generator/_streaming.py:39-41 | whatever the flag, the result does not support the mask and is named `no` |
| NativeStreaming.CreateStandardStreaming | lettuce/native_generator/_streaming.py:92-94 | the flag is kept; the name is `standardM` with the mask and `standard` without |
| NativeStreaming.GenerateNoStreamMask | lettuce/native_generator/_streaming.py:21-27 | the new generator state is `NoStreamMaskSpec` of the old: each hook is added only if it is missing, and the wrapper assertion goes with the launcher hook |
| NativeStreaming.NoStreamMaskEffect | lettuce/native_generator/_streaming.py:21-27 | afterwards `no_stream_mask` is hooked in launcher and kernel; hooks already present are kept; the assertion line is added exactly when the launcher hook is; registry, after-wrapper and line buffers are unchanged |
| NativeStreaming.NoStreamMaskIdempotent | lettuce/native_generator/_streaming.py:21-27 | a second `generate_no_stream_mask` changes nothing, so no second assertion or hook |
| NativeStreaming.GenerateFNext | lettuce/native_generator/_streaming.py:96-108 | the new state is `FNextSpec` of the old: it registers `f_next` and appends the swap line once, and hooks `f_next` where it is not hooked |
| NativeStreaming.FNextEffect | lettuce/native_generator/_streaming.py:96-108 | `f_next` ends up registered. On the first call the swap line is appended once and `f_next` is hooked in launcher and kernel. A repeated call changes nothing. Existing hooks are kept, and no line is emitted |
| NativeStreaming.FNextIdempotent | lettuce/native_generator/_streaming.py:96-108 | calling `generate_f_next` twice is the same as calling it once |
| NativeStreaming.InitialSwapsOnce | lettuce/native_generator/_streaming.py:97-101 | a fresh generator satisfies the invariant "the swap line is in the after-wrapper once if `f_next` is registered, otherwise not at all" |
| NativeStreaming.FNextSwapsOnce | lettuce/native_generator/_streaming.py:97-101 | `generate_f_next` preserves that invariant, so repeated calls never swap the buffers twice per step |
| NativeStreaming.NoStreamMaskSwapsOnce | lettuce/native_generator/_streaming.py:21-27 | `generate_no_stream_mask` preserves the swap invariant |
| NativeStreaming.NoStreamingReadWrite | lettuce/native_generator/_streaming.py:43-83 | the new state is `NoStreamingReadWriteSpec` of the old: nothing when `read_write()` is registered, otherwise register, request the dependencies, emit the read loop and the in-place write loop |
| NativeStreaming.EmitReadLoop | lettuce/native_generator/_streaming.py:56-69 | the index buffer is extended by exactly the read loop; the `x_`/`y_`/`z_` lines appear for the axes below `d` only |
| NativeStreaming.EmitInPlaceWriteLoop | lettuce/native_generator/_streaming.py:72-83 | the write buffer is extended by exactly the in-place write loop |
| NativeStreaming.NoStreamingDependenciesEffect | lettuce/native_generator/_streaming.py:44-50 | `read_write()` is registered, then `q`, `d` and `offset` are requested, in that order and before any line; hooks and wrapper lines are unchanged |
| NativeStreaming.NoStreamingReadWriteEffect | lettuce/native_generator/_streaming.py:43-83 | on the first call the registry grows by `read_write()`, `q`, `d`, `offset`. The index and write buffers grow by the read and in-place loops, and every call precedes the lines. Once `read_write()` is registered, the call changes nothing |
| NativeStreaming.RegisterAndMaskEffect | lettuce/native_generator/_streaming.py:111-117 | after registering `read_write()`, the mask is hooked in both tables when supported; without mask support the hook tables are unchanged |
| NativeStreaming.FNextAfterRegister | lettuce/native_generator/_streaming.py:111-119 | `generate_f_next` after that registration adds `f_next`, keeps the mask hooks as they were, and keeps `read_write()` as the first new call |
| NativeStreaming.StandardHooksEffect | lettuce/native_generator/_streaming.py:111-119 | registration, mask and `f_next` together: registry grows by `read_write()` and `f_next`; the mask is hooked iff it is supported or was already hooked; the swap line appears on the first `f_next` |
| NativeStreaming.RequestPrimitivesEffect | lettuce/native_generator/_streaming.py:120-124 | `offset`, `index`, `dimension`, `q`, `e` are requested in that order and nothing else changes |
| NativeStreaming.RequestStandardDependencies | lettuce/native_generator/_streaming.py:111-124 | the new state is `StandardDependencies` of the old |
| NativeStreaming.StandardDependenciesEffect | lettuce/native_generator/_streaming.py:111-124 | `read_write()` is registered first. The mask hooks are present iff the mask is supported (or were already hooked). `f_next` and the five primitives come last, in source order. All of this happens before any emitted line |
| NativeStreaming.StandardReadWrite | lettuce/native_generator/_streaming.py:110-179 | the new state is `StandardReadWriteSpec` of the old |
| NativeStreaming.StandardReadWriteEffect | lettuce/native_generator/_streaming.py:110-179 | on the first call, all the dependencies listed above come first. Then the index buffer gains the read loop and the write buffer gains the streaming write loop. Once `read_write()` is registered, the call changes nothing |
| NativeStreaming.GenerateReadWrite | lettuce/native_generator/_streaming.py:43-179 | `generate_read_write` of either variant moves the state to `ReadWriteSpec` |
| NativeStreaming.ReadWriteOnce | lettuce/native_generator/_streaming.py:110-112 | after `generate_read_write` of either variant, a further call of either variant changes nothing (the key `read_write()` is shared, lines 44-45 and 111-112) |
| NativeStreaming.ReadWriteSwapsOnce | lettuce/native_generator/_streaming.py:110-124 | `generate_read_write` of either variant preserves the swap invariant |
| NativeStreaming.EmitStreamingWriteLoop | lettuce/native_generator/_streaming.py:147-179 | the write buffer is extended by exactly the standard write loop |
| NativeStreaming.EmitMaskedBranch | lettuce/native_generator/_streaming.py:152-161 | the masked branch is appended line by line, each line only when its condition holds |
| NativeStreaming.EmitWrap | lettuce/native_generator/_streaming.py:163-174 | the shift-and-wrap block of one axis is appended when the axis is below `d`, nothing otherwise |
| NativeStreaming.AxisLinesShape | lettuce/native_generator/_streaming.py:63-65 | there are `min(d, 3)` axis lines, and line `k` takes axis variable `k` from the cell index |
| NativeStreaming.WrapsLinesAt | lettuce/native_generator/_streaming.py:163-174 | the wrap blocks have `4n` lines, and line `4a + j` is line `j` of the block for axis `a` |
| NativeStreaming.WrapsLinesShape | lettuce/native_generator/_streaming.py:163-174 | each axis below `n` is shifted, wrapped below and wrapped above at exactly one line each (both directions of the iff); no wrap line reads the cell index as an axis variable |
| NativeStreaming.WrapsLinesMembers | lettuce/native_generator/_streaming.py:163-174 | axis `a` is shifted iff `a < n` |
| NativeStreaming.StreamingHeadMembers | lettuce/native_generator/_streaming.py:147-162 | the loop opening shifts nothing; it takes axis variables from the cell index iff the mask is supported and the axis is below `min(d, 3)` |
| NativeStreaming.StreamingWriteLoopAxes | lettuce/native_generator/_streaming.py:147-179 | the standard write loop shifts exactly the axes below `min(d, 3)`, and takes axis variables from the index only in the masked branch |
| NativeGenerator.When | lettuce/native_generator/_streaming.py:63-65 | an append with `cond` false adds no line, with `cond` true exactly that line |
| NativeGenerator.Generator.Register | lettuce/native_generator/_streaming.py:44-45 | the key is added to the registry and the call is logged with the current buffer lengths; nothing else changes |
| NativeGenerator.Generator.LauncherHook | lettuce/native_generator/_streaming.py:24-25 | the launcher table maps the name to the given declaration, argument and expression; the call is logged |
| NativeGenerator.Generator.KernelHook | lettuce/native_generator/_streaming.py:26-27 | the kernel table maps the name to the given declaration and expression; the call is logged |
| NativeGenerator.Generator.AppendIndexBuffer | lettuce/native_generator/_streaming.py:56-69 | the index buffer grows by the line exactly when `cond` holds |
| NativeGenerator.Generator.AppendWriteBuffer | lettuce/native_generator/_streaming.py:72-83 | the write buffer grows by the line exactly when `cond` holds |
| NativeGenerator.Generator.AppendPythonWrapperBeforeBuffer | lettuce/native_generator/_streaming.py:23 | the before-wrapper grows by the text |
| NativeGenerator.Generator.AppendPythonWrapperAfterBuffer | lettuce/native_generator/_streaming.py:100-101 | the after-wrapper grows by the text |
| NativeGenerator.Generator.Request | lettuce/native_generator/_streaming.py:48-50 | a collaborator's `generate_*` registers its primitive and is logged |
| StreamingKernel.ReadLoopReadsOwnCell | lettuce/native_generator/_streaming.py:56-69 | one iteration of the read loop reads exactly entry `[i, index…]` of `f` and writes nothing |
| StreamingKernel.InPlaceWriteLoopWritesOwnCell | lettuce/native_generator/_streaming.py:72-83 | one iteration of the no-streaming write loop writes exactly entry `[i, index…]` of `f` and nothing of `f_next` |
| StreamingKernel.NoStreamingKeepsPopulations | lettuce/native_generator/_streaming.py:56-83 | no streaming writes each population back to the entry it was read from |
| StreamingKernel.WrapIsModulo | lettuce/native_generator/_streaming.py:163-165 | for `-n <= v < 2n` the emitted wrap lies in `[0, n)` and equals `v mod n` |
| StreamingKernel.ShiftedIsNeighbour | lettuce/native_generator/_streaming.py:163-174 | for a cell inside the lattice and a velocity of at most one extent, the wrapped axes are `(index + e) mod dimension`, each on its own extent |
| StreamingKernel.RunWrap | lettuce/native_generator/_streaming.py:163-166 | running one axis block leaves that axis variable at the wrapped shifted index |
| StreamingKernel.RunWraps | lettuce/native_generator/_streaming.py:163-174 | running the blocks of the first `n` axes leaves exactly those axis variables, at the wrapped shifted indices |
| StreamingKernel.MaskedCell | lettuce/native_generator/_streaming.py:153-161 | at a masked cell the branch stores the register at the cell itself, `[i, index…]`, and closes into the not-taken `else` |
| StreamingKernel.UnmaskedCell | lettuce/native_generator/_streaming.py:152-161 | at an unmasked cell the masked branch stores nothing and opens the taken `else` |
| StreamingKernel.StreamedCell | lettuce/native_generator/_streaming.py:162-179 | without the mask, or at an unmasked cell, the iteration writes `f_next` once, at `[i]` + the wrapped neighbour, and touches nothing of `f` |
| StreamingKernel.KeptCell | lettuce/native_generator/_streaming.py:152-161 | with the mask, a masked cell writes `f_next` once, at its own coordinate |
| StreamingKernel.StreamingWriteLoopPushes | lettuce/native_generator/_streaming.py:147-179 | each iteration of the standard write loop writes exactly one entry of `f_next`. With the mask enabled and the cell masked, that is the cell itself; otherwise it is `[i] + (index + e[i]) mod dimension`. It never touches `f` |
| StreamingKernel.NeighbourInLattice | lettuce/native_generator/_streaming.py:163-174 | the push target lies inside the lattice |
| StreamingKernel.WrapBack | lettuce/native_generator/_streaming.py:163-165 | wrapping after the opposite shift undoes a wrap |
| StreamingKernel.StreamBack | lettuce/native_generator/_streaming.py:163-174 | streaming the neighbour along the opposite direction returns to the original cell |
| StreamingKernel.NoCollision | lettuce/native_generator/_streaming.py:163-175 | two cells that push the same direction to the same `f_next` entry are the same cell, so no two cells write the same entry |
| StreamingKernel.CornerWrapsAround | lettuce/native_generator/_streaming.py:163-174 | in two dimensions `(-1, -1)` at `(0, 0)` goes to `(Nx-1, Ny-1)` |
| StreamingKernel.RightEdgeWrapsAround | lettuce/native_generator/_streaming.py:163-166 | in two dimensions `(1, 0)` at `(Nx-1, y)` goes to `(0, y)` |
| Moments.MomentTensor | lettuce/moments.py:16-20 | one entry per velocity |
| Moments.MomentTensors | lettuce/moments.py:16-20 | one row per multi-index, one column per velocity |
| Moments.MonomialOfZero | lettuce/moments.py:16-20 | the product of zeroth powers is 1 |
| Moments.MomentTensorOfZero | lettuce/moments.py:16-20 | the all-zero multi-index gives a vector of Q ones |
| Moments.MomentTensorsOfZero | lettuce/moments.py:16-20 | every all-zero row of a batch of multi-indices is a vector of ones |
| Moments.NatToStringInjective | lettuce/moments.py:44 | distinct numbers have distinct decimal texts |
| Moments.DefaultNamesDistinct | lettuce/moments.py:44 | the default names `m0 … m{Q-1}` are pairwise distinct |
| Moments.NewTransform | lettuce/moments.py:42-44 | without names the transform is named `m0 … m{Q-1}`; given names are kept |
| Moments.BaseTransformIsIdentity | lettuce/moments.py:51-55 | the base transform and its inverse are the identity |
| Moments.BasisMatrix | lettuce/moments.py:71-181 | the basis matrix is square, of the basis size |
| Moments.InverseMatrix | lettuce/moments.py:76-181 | the inverse matrix is square, of the basis size |
| Moments.Transform | lettuce/moments.py:89-90 | the moments have as many entries as the populations (also lines 51-52, 134-135, 192-193) |
| Moments.InverseTransform | lettuce/moments.py:92-93 | the populations have as many entries as the moments (also lines 54-55, 137-138, 195-196) |
| Moments.D1Q3InverseEntries | lettuce/moments.py:71-80 | each entry of `inverse · matrix` and of `matrix · inverse` for D1Q3 is that of the identity |
| Moments.DellarInverseEntries | lettuce/moments.py:102-123 | the same for Dellar's basis, both products |
| Moments.DellarLeftEntry | lettuce/moments.py:102-123 | entry `(i, j)` of `inverse · matrix` for Dellar's basis is that of the identity |
| Moments.DellarRightEntry | lettuce/moments.py:102-123 | entry `(i, j)` of `matrix · inverse` for Dellar's basis is that of the identity |
| Moments.LallemandInverseEntries | lettuce/moments.py:160-181 | the same for Lallemand's basis, both products |
| Moments.LallemandLeftEntry | lettuce/moments.py:160-181 | entry `(i, j)` of `inverse · matrix` for Lallemand's basis is that of the identity |
| Moments.LallemandRightEntry | lettuce/moments.py:160-181 | entry `(i, j)` of `matrix · inverse` for Lallemand's basis is that of the identity |
| Moments.InverseIsExact | lettuce/moments.py:71-181 | for every basis, the inverse is a two-sided inverse over the exact rationals |
| Moments.RoundTrip | lettuce/moments.py:89-93 | `inverse_transform(transform(f)) == f` for every transform |
| Moments.InverseRoundTrip | lettuce/moments.py:89-93 | `transform(inverse_transform(m)) == m` for every transform |
| Moments.ConservedRowsD2Q9 | lettuce/moments.py:103-105 | rows 0–2 of the Dellar and the Lallemand matrix (lines 161-163) are the moment tensors of `(0,0)`, `(1,0)`, `(0,1)` over the D2Q9 velocities |
| Moments.D1Q3RowsAreMoments | lettuce/moments.py:71-75 | the D1Q3 rows are the moment tensors of orders 0, 1, 2 |
| Moments.IndexOf | lettuce/moments.py:49 | `list.index`: some position iff the name is present, the first one holding it |
| Moments.Lookup | lettuce/moments.py:46-49 | success iff every requested name is present; then one position per name, in request order, each the first holding it |
| Moments.IndexOfFirst | lettuce/moments.py:49 | the first position holding a name is what the lookup returns |
| Moments.ConservedLookups | lettuce/moments.py:46-49 | names starting `rho`, `jx`, `jy` resolve `("jx", "jy")` to `[1, 2]` and `"rho"` to `[0]` |
| Moments.D2Q9Lookups | lettuce/moments.py:46-49 | for Lallemand and Dellar, `["jx","jy"]` gives `[1, 2]` and `"rho"` gives `[0]` |
| Moments.MissingNameFails | lettuce/moments.py:49 | a name not in the list makes the lookup fail, alone or at the end of a tuple |
| Moments.DefaultNameLookup | lettuce/moments.py:44-49 | with default names, `m{i}` resolves to `[i]` |
| Moments.DefaultMomentTransform | lettuce/moments.py:23-29 | D1Q3 gives the D1Q3 transform, D2Q9 gives Lallemand's, every other stencil fails |
| Moments.DefaultTransformFitsStencil | lettuce/moments.py:23-29 | the chosen transform has as many moments and names as the stencil has velocities |
| Moments.DellarEquilibrium | lettuce/moments.py:140-155 | `rho`, `jx`, `jy` unchanged, the three stress entries from the momentum over the density, entries 6 onwards zero |
| Moments.LallemandCoefficients | lettuce/moments.py:205-217 | with the source's constants the coefficients multiply out to `e = -2ρ + 3j²`, `eps = ρ - 3j²`, `q = -j`, `pxx = (jx²-jy²)/3`, `pxy = jx·jy/3` |
| Moments.LallemandEquilibrium | lettuce/moments.py:198-226 | `rho`, `jx`, `jy` unchanged; `qx == -jx`, `qy == -jy`; the energy, stress and `eps` entries in closed form; any further entries zero |
| Moments.StoreNine | lettuce/moments.py:218-226 | a zero vector with the nine given values stored at entries 0–8 |
| Stencils.D1Q3WellFormed | lettuce/moments.py:72-74 | the velocity order (0), (1), (-1) with its opposite table is closed under negation, the table an involution |
| Stencils.D2Q9WellFormed | lettuce/moments.py:161-163 | the same for the D2Q9 order read from the matrix rows |
| Boundary.BounceBack | lettuce/boundary.py:19-21 | masked cells take the opposite population, `f'[q] == f[opposite[q]]`; unmasked cells keep `f` |
| Boundary.BounceBackOutsideMask | lettuce/boundary.py:19-21 | with an empty mask bounce-back is the identity |
| Boundary.BounceBackTwice | lettuce/boundary.py:20 | with `opposite` an involution, bouncing back twice restores `f` |
| Boundary.MaxAbs | lettuce/boundary.py:52 | the largest absolute entry, attained at some entry |
| Boundary.DirectionAcceptedIffUnitAxis | lettuce/boundary.py:52-54 | the constructor's check accepts a direction iff it has 1–3 entries, all zero but one, and that one is ±1 (both directions) |
| Boundary.DirectionExamples | lettuce/boundary.py:52-54 | `[1,0]`, `[-1,0]`, `[0,0,-1]` are accepted; `[1,1]`, `[0,0]`, `[1,-1,1]` are rejected |
| Boundary.SelectVelocities | lettuce/boundary.py:59 | exactly the velocity indices with `e[q]·direction == 1`, strictly increasing |
| Boundary.ProjectionOnAxis | lettuce/boundary.py:59 | for a unit-axis direction, the projection is the one velocity component times the sign |
| Boundary.OppositeSidesDisjoint | lettuce/boundary.py:59 | the velocities selected for `d` and for `-d` are disjoint |
| Boundary.D2Q9EastVelocities | lettuce/boundary.py:59 | for D2Q9 and `[1, 0]` the selected velocities are `[1, 5, 8]` |
| Boundary.SideIndices | lettuce/boundary.py:62-73 | the loop over the direction produces `IndexList` and `NeighbourList` of it |
| Boundary.SideListsPointwise | lettuce/boundary.py:62-73 | for entries in {-1, 0, 1}: same length as the direction; 0 → full slice for both, 1 → `-1`/`-2`, -1 → `0`/`1` |
| Boundary.WeightsAt | lettuce/boundary.py:78-85 | the weights of the selected velocities, in their order |
| Boundary.NewOutlet | lettuce/boundary.py:51-85 | success iff the check accepts the direction, its length is the stencil's dimension, and some velocity points along it. Then the direction is a unit axis, and the outlet holds the selected velocities, both slice lists, the einsum subscripts for its length and the weights |
| BgkInitialization.MomentumNames | lettuce/ext/_collision/bgk_initialization.py:18 | `jx`, `jy`, `jz` truncated to the dimension |
| BgkInitialization.MomentumNamesDistinct | lettuce/ext/_collision/bgk_initialization.py:18 | the momentum names are pairwise distinct |
| BgkInitialization.NewBgkInitialization | lettuce/ext/_collision/bgk_initialization.py:12-19 | success iff every momentum name is a moment name. Then the parameters are kept, with one index per momentum name, each naming it, all distinct |
| BgkInitialization.LallemandMomentumIndices | lettuce/ext/_collision/bgk_initialization.py:18-19 | in two dimensions with Lallemand's basis the momentum indices are `[1, 2]` |
| BgkInitialization.D1Q3HasNoJx | lettuce/ext/_collision/bgk_initialization.py:18-19 | with the D1Q3 transform (names `rho`, `j`, `e`) the lookup of `jx` fails |
| BgkInitialization.Relaxed | lettuce/ext/_collision/bgk_initialization.py:26 | a moment already at equilibrium is unchanged |
| BgkInitialization.Scale | lettuce/ext/_collision/bgk_initialization.py:28 | `rho * u` componentwise |
| BgkInitialization.Relax | lettuce/ext/_collision/bgk_initialization.py:26-28 | same length as `m`. The momentum entries are `rho * u`. Entry 0 (when it is not a momentum) is relaxed with `tau + 1`. Every other entry is `m[k] - (m[k] - meq[k]) / tau` |
| BgkInitialization.Call | lettuce/ext/_collision/bgk_initialization.py:21-30 | the populations keep their length. Their moments are exactly the relaxed moments of `f` against `feq`, with the momenta pinned to `rho * u` |

## Left out

- `NativeStreaming.create` and `NativeStreaming.generate_read_write` of the abstract base class only raise `NotImplementedError`. The model has only the two concrete variants.
- The `Generator` class, `get_lattice_coordinate` and the collaborators' `generate_q`/`generate_d`/`generate_e`/`generate_offset`/`generate_index`/`generate_dimension` are not part of this model.
  - The generator's operations are modelled as their use implies.
  - A collaborator's `generate_*` is modelled as a registration of its primitive only. Any hooks or lines it may add are not modelled.
  - Coordinates are lists of index terms, not their C++ text.
- Emitted lines are tags. The whitespace padding of each line and the exact C++ text are not modelled.
- The kernel semantics covers one iteration of the `for (i < q)` loop at one cell. The code other contributors place between the read and write loops is not modelled.
  - `index_t` is an unbounded integer, so there is no overflow.
  - The wrap theorems assume a cell inside the lattice and velocity components of at most one extent. Outside that range, one wrap is not a remainder.
- FNextEffect: it states that `f_next` is hooked only for the first call, because a later call finds `f_next` registered and does nothing.
- `Transform.equilibrium` of the base class (lettuce/moments.py:57-67) is not modelled. It needs the lattice's equilibrium, density and velocity, which are not part of this model, and it only issues a warning.
- The `Moments` class (lettuce/moments.py:32-36) is an unfinished stub and is not modelled. Neither is the `get_subclasses` registry (lettuce/moments.py:13).
- Warnings (`ExperimentalWarning`, `InefficientCodeWarning`) are not modelled.
- Stencils: `stencils.py` is not part of this model.
  - The D1Q3 and D2Q9 velocity orders are read from the moment matrices.
  - D2Q9's weights and opposite table follow that order.
- Transforms, equilibria and the BGK step act on one cell's vector. Tensor fields over the grid, devices and dtypes are not modelled. Values are exact `real` numbers, with no float32/float64 rounding.
- DellarEquilibrium: requires a non-zero density, because exact division by zero has no IEEE `inf`/`nan` counterpart here.
- DellarEquilibrium and LallemandEquilibrium require at least 6 and 9 moments respectively. A shorter `m` makes the source's indexed stores fail.
- Relax and Call require `tau` and `tau + 1` to be non-zero, for the same reason as the density.
- BasisMatrix and InverseMatrix: their contracts state only the shape. The entries are the constant displays, and what they mean is stated by InverseIsExact and the round trips.
- Transform and InverseTransform: their contracts state only the length. The relation between them is RoundTrip and InverseRoundTrip.
- BgkInitialization: the flow's initial velocity, unit conversion, density and equilibrium are inputs of the model (`u`, `rho0`, `rho`, `feq`).
- NewOutlet: directions are integer lists. The source's `isinstance(direction, list)` test and non-integer entries are not modelled.
- The failures numpy would raise are modelled as error results:
  - a direction whose length differs from the stencil's;
  - a direction along which no velocity points.
- `AntiBounceBackOutlet.__call__` (lettuce/boundary.py:87-92) is a floating-point formula over `einsum` and `norm` and is not modelled. `EquilibriumBoundaryPU` is left out because its unit conversion and equilibrium are not part of this model.
- The observable reporters and the example script that generates and installs the native extension are left out. They do I/O, FFT numerics and an external build.
