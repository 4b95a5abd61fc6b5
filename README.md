# A verified model of the mesh viewer's key bindings, parameters and mesh loading

The program is a small OpenGL viewer for one binary STL mesh. The mesh is
turned by six stepped parameters: three rotations (`SpinX`, `SpinY`,
`SpinZ`) and three offsets (`OffsetX`, `OffsetY`, `OffsetZ`). The keyboard
steps them through a global dispatch table `keyMap[256]`. For each key the
table holds an ordered list of `(action, id)` pairs.

This project models the logic that is not graphics plumbing, and proves its
bookkeeping.

- `bindings.dfy`, module `Bindings`:
  - the table, modelled as the array of a `Globals` object that also holds `ParamData::func_cnt`;
  - `ParamData`, with its constructor, `bindUp` / `bindDown` (`Bind`) and `unbindUp` / `unbindDown` (`Unbind`);
  - `keyboard`.
  - An action closure is modelled as a tag: an `Entry` naming the parameter, the direction of the step and the id.
  - Trigger invocations are recorded in a trace `Globals.calls`.
  - `Globals.Valid()` is the invariant every operation keeps:
    - every parameter holds two consecutive ids below the counter, and no id is shared;
    - every entry carries its own direction's id;
    - apart from key 0, which also means "not bound", each direction's id occurs at most once, and only under the key it has recorded.
- `items.dfy`, module `Items`:
  - `Param`: its constructor, move constructor and destructor;
  - `Item`: its constructor, move constructor, destructor, `load` and the matrix `draw` composes;
  - the twelve bindings `init` makes.
- `mesh.dfy`, module `Mesh`:
  - the binary STL format: an 80-byte header, a little-endian int32 count, and 50-byte records;
  - the vertex buffer `load` builds, with an encoder used to state round trips.
- `transforms.dfy`, module `Transforms`:
  - `Mat4 operator*` as a triple loop;
  - the six trigger formulas;
  - the projection and the factor order of `Item::draw`;
  - `reshape`.

The model has these inputs and outputs:

- Input: the file `load` reads is a byte sequence.
- Input: `cosf` / `sinf` are parameters (`c`, `s`, or functions `cos`, `sin`).
- Output: `glBufferData` is the `vbo` field, which holds the words uploaded.
- Output: every trigger call is recorded, with its value, in the trace `calls`; the matrices the triggers store are read back from it by `Param.Matrix`. The text the triggers write to `std::clog` is dropped.

## Model

| member | source | states |
|---|---|---|
| Bindings.FirstIndex | 1/main.cpp:191-192 | the search loop stops at the first entry carrying the id, or at the end of the list when none does |
| Bindings.RemoveFirstKeepsOrder | 1/main.cpp:191-196 | `erase` removes exactly the first entry with the id; the others stay, in their order; a list without the id is unchanged; nothing is added |
| Bindings.CountRemoveFirst | 1/main.cpp:191-196 | the erase lowers the number of entries with the id by one when there is one, and changes the count of no other id |
| Bindings.DetachClears | 1/main.cpp:188-208 | when the placement invariant holds, unbinding leaves the direction's id under no key other than 0 |
| Bindings.DetachIdempotent | 1/main.cpp:188-208 | unbinding twice gives the same table as unbinding once |
| Bindings.RebindKeeps | 1/main.cpp:210-220 | a bind keeps the placement invariant: its own direction is now placed at the new key, every other id keeps its placement, and the only entry added is its own |
| Bindings.RebindShape | 1/main.cpp:210-220 | a bind appends exactly one entry, at the end of the new key's list, after taking the direction's earlier entry out of the recorded key's list; the new key's list then holds the id once (unless the key is 0), the old key's list no more, and every other list is untouched |
| Bindings.RebindRetires | 1/main.cpp:210-214 | after binding to k1 and then to a different key k2 (neither 0), k1's list holds no entry with the direction's id and k2's list holds exactly one |
| Bindings.KeyZeroLingers | 1/main.cpp:188-214 | since key 0 also means "not bound", an entry bound to key 0 is never removed: it is still in key 0's list after a rebind elsewhere |
| Bindings.AttachAllAt | 1/main.cpp:213-219 | after a run of binds onto idle parameters, each key's list is its old list followed by the entries bound to that key, in call order |
| Bindings.FreshIdsAbsent | 1/main.cpp:185-186 | the two ids `func_cnt` is about to hand out occur in no list of a well-formed table |
| Bindings.AddParamValid | 1/main.cpp:185-186 | registering data with the next two ids and no recorded keys keeps id uniqueness and both table invariants, with the counter two higher |
| Bindings.Globals.constructor | 1/main.cpp:34 | at program start every key's list is empty, no id has been handed out and the invariant holds |
| Bindings.ParamData.constructor | 1/main.cpp:185-186 | new data takes the ids `func_cnt` and `func_cnt + 1`, records key 0 for both directions, and raises the counter by two; the ids stay unique across all data (`g.Valid()`), and the table and trace are unchanged |
| Bindings.ParamData.Unbind | 1/main.cpp:188-208 | the table becomes `Detach` of the old one at the recorded key (unchanged for key 0); no proper key holds the direction's id afterwards; the invariant is kept |
| Bindings.ParamData.Bind | 1/main.cpp:210-220 | the direction records the new key and the other direction's key is unchanged; the table becomes `Rebind` of the old one; the invariant is kept |
| Bindings.Keyboard | 1/main.cpp:554-559 | running a key's list changes only the trace and the values of the parameters the list steps. Each such parameter ends at its value plus (ups − downs) × step. The trace grows by one call per entry, in list order, each with the value just reached. A key with an empty list changes nothing. The invariant is kept |
| Bindings.Run | 1/main.cpp:556-557 | the loop over one list leaves each parameter the list names at its value plus (ups − downs) × step, and appends one trigger call per entry, in list order, with the value just reached |
| Bindings.Fire | 1/main.cpp:213-219 | one action adds (up) or subtracts (down) the step and hands the new value to the trigger |
| Bindings.SteppedNext | 1/main.cpp:213-219 | one more entry moves its own parameter by one step in its direction and no other parameter |
| Bindings.FiredInOrder | 1/main.cpp:556-557 | the triggers fire once per entry, in list order |
| Bindings.TriggerSeesFinalValue | 1/main.cpp:213-219 | the last value a list hands to a parameter's trigger is the value the parameter ends with |
| Bindings.LatestAt | 1/main.cpp:251-262 | `Latest` is the value of the last trigger call on a parameter: a call on it after which no call on it follows |
| Bindings.LatestAfterRun | 1/main.cpp:554-559 | after a key press, the latest trigger call of a parameter the list steps carries its final value; for every other parameter the latest call is what it was |
| Bindings.UnboundNotTarget | 1/main.cpp:554-557 | a list holding neither id of a parameter does not step it, so dispatching a retired or released key leaves the parameter alone |
| Transforms.Multiply | 1/main.cpp:67-75 | the triple loop, accumulating into a zero matrix, computes the matrix product |
| Transforms.DotFour | 1/main.cpp:72-73 | entry (i, j) of the product is the sum of the four products a[i][k] · b[k][j] |
| Transforms.ProductApply | 1/main.cpp:67-75 | the product applies its right factor first: (a · b) v = a (b v) |
| Transforms.ProductIdentity | 1/main.cpp:67-75 | the identity is neutral on both sides of the product |
| Transforms.StepOf | 1/main.cpp:31-32 | the step is positive: one degree (`SPIN_SPEED`) exactly for the rotations and 0.1 (`OFFSET_SPEED`) exactly for the offsets |
| Transforms.Formula | 1/main.cpp:256-386 | every trigger matrix is affine (last row 0 0 0 1); a rotation translates nothing; an offset has the identity as its linear part and translates by v along its own axis |
| Transforms.OffsetMoves | 1/main.cpp:319-392 | an offset matrix with value v moves a point (w = 1) by v along its axis, and leaves a direction (w = 0) unchanged |
| Transforms.SpinFixesAxis | 1/main.cpp:244-317 | a rotation matrix keeps w and the coordinate along its own axis, and at angle 0 it is the identity |
| Transforms.ProjectionDepth | 1/main.cpp:481-486 | the projection scales x and y by `scale`, sends depth zN to 0 and zF to zF + 1, and sets w to z + 1 |
| Transforms.DrawOrder | 1/main.cpp:480-489 | the composed matrix applies sz first, then sy, sx, oz, oy, ox, and the projection last |
| Transforms.Reshape | 1/main.cpp:548-552 | the viewport is the largest square that fits, with side min(w, h), centred with at most one pixel of slack per axis |
| Mesh.PointAt | 1/main.cpp:443-448 | a vector read from the file has the given w word, whatever the file holds at that place |
| Mesh.DecodeInt32 | 1/main.cpp:439 | the count is a 32-bit two's-complement integer, negative exactly when the top bit of its last byte is set |
| Mesh.DecodeRecord | 1/main.cpp:442-450 | every parsed triangle has normal w = 0 and corner w = 1, whatever the file holds |
| Mesh.Triangles | 1/main.cpp:440-452 | n records are parsed in file order, the i-th from bytes 84 + 50i to 84 + 50i + 50 |
| Mesh.ReadRecord | 1/main.cpp:442-450 | the reads at a cursor decode the 50-byte record that starts there |
| Mesh.Int32RoundTrip | 1/main.cpp:439 | writing a 32-bit count and reading it back gives the count |
| Mesh.Int32EncodeDecode | 1/main.cpp:439 | reading four bytes as a count and writing it back gives the bytes |
| Mesh.RecordRoundTrip | 1/main.cpp:442-450 | a triangle with normal w = 0 and corner w = 1, written as a record and parsed back, is unchanged |
| Mesh.RecordEncodeDecode | 1/main.cpp:442-450 | any 50 bytes, parsed and written back, are unchanged: parsing loses nothing but the two forced w words |
| Mesh.ParseEncode | 1/main.cpp:437-452 | a file written from a header and triangles reads back as that header, that count and those triangles |
| Mesh.EncodeParse | 1/main.cpp:437-452 | a file holding exactly its records is rewritten byte for byte from what is read |
| Mesh.LayoutAt | 1/main.cpp:455-465 | the buffer holds 24n floats: triangle t's three corners at 12t, and its normal three times at 12n + 12t |
| Mesh.VertexAttributes | 1/main.cpp:469-472 | read through attribute 0 at float 0 and attribute 1 at float 12n, vertex m gets corner m mod 3 of triangle m div 3 and that triangle's normal |
| Mesh.EveryVertex | 1/main.cpp:469-490 | the same for every one of the 3n vertices `glDrawArrays` draws |
| Mesh.Copy | 1/main.cpp:461-464 | a `memcpy` overwrites exactly the target range of the buffer |
| Mesh.CopyNormal | 1/main.cpp:462-464 | the three normal copies put the normal three times at the normal cursor and touch nothing else |
| Mesh.CopyTriangle | 1/main.cpp:459-464 | one turn of the copy loop puts triangle i's corners at 12i and its normal three times at 12n + 12i, keeping what earlier turns copied |
| Mesh.BuildBuffer | 1/main.cpp:455-465 | the copy loop over all held triangles into a fresh 24n-float buffer runs past its end exactly when more than n triangles are held; otherwise the corners and normals sit at their cursors, and with exactly n triangles the buffer is `Layout`: all corners first, then each normal three times |
| Items.ReleasedClears | 1/main.cpp:234-241 | destroying a parameter whose directions are placed leaves neither of its ids under any proper key |
| Items.ReleasedAllGone | 1/main.cpp:402-433 | destroying an item's parameters, last declared first, leaves none of their ids under any proper key |
| Items.ReleasedAllFree | 1/main.cpp:233-241 | parameters that were moved from release nothing: destroying them leaves the table as it was |
| Items.Param.constructor | 1/main.cpp:232-263 | `SpinX(dgr)` and its five siblings: fresh data with the kind's step and no binding, registered with the table; the trigger runs once with the initial value |
| Items.Param.Matrix | 1/main.cpp:251-262 | the matrix a trigger stores through `mat` and `draw` reads (1/main.cpp:488) is the kind's formula at the value of the last trigger call on this parameter's data, and it is always affine |
| Items.Param.MatrixAfterRun | 1/main.cpp:251-262 | after a key press, the matrix a parameter's trigger last stored is its kind's formula at the value the press left it with; a parameter the press does not step keeps its matrix |
| Items.Param.Move | 1/main.cpp:233 | the new parameter takes over the data and the old one holds none |
| Items.Param.Destroy | 1/main.cpp:234-241 | a parameter that still owns data unbinds up, then down, and afterwards neither id is bound under any proper key (key 0 may keep entries); a moved-from parameter leaves the table alone; the invariant is kept |
| Items.Item.constructor | 1/main.cpp:409-415 | the six parameters are built in declaration order with ids from the counter on, hold the initial values (0, 0, 0, 0, 0, 300) and the steps of their kinds (one degree for the spins, 0.1 for the offsets), and are each triggered once with that value; they are distinct and unbound, the table is unchanged and the name buffer is 81 zero bytes |
| Items.Item.NewParams | 1/main.cpp:409-411 | three parameters built in turn have their kinds, initial values and steps, take the next six ids, and trigger in construction order |
| Items.Item.Move | 1/main.cpp:417-426 | the new item takes over the mesh, the buffer and all six data; the old item keeps no data, name, triangles or buffer, so only one live set of bindings remains |
| Items.Item.Destroy | 1/main.cpp:428-433 | destruction releases the six parameters in reverse declaration order, so afterwards no id of the item is bound to any proper key; the invariant is kept |
| Items.Item.Load | 1/main.cpp:435-475 | the corrected `load`: unlike the source, which appends to `tri` (1/main.cpp:451), it clears `tri` first. The header goes into the name buffer, the count is read and the triangles are parsed in file order. The buffer is `Layout` of the triangles and the normal offset is 48n bytes. Every drawn vertex reads its corner and its normal. A negative count fails and leaves the buffer alone |
| Items.Item.LoadAsWritten | 1/main.cpp:435-475 | `load` as written appends the file's triangles to those held; it then overruns its buffer exactly when the item already held triangles, and otherwise uploads `Layout` with the normals at 48n bytes; a negative count fails with nothing read |
| Items.Item.DrawCount | 1/main.cpp:490 | the count handed to `glDrawArrays` is three vertices per triangle: a multiple of 3 whose third is `n` |
| Items.Item.DrawCovers | 1/main.cpp:469-490 | after a load, the `n*3` vertices `draw` asks for cover the buffer exactly: the positions end at the normal offset and the normals end at the end of the buffer |
| Items.Item.ReadRecords | 1/main.cpp:440-452 | the read loop appends the file's first `count` records to the triangles, in order; a count of zero or less reads nothing |
| Items.Item.Convert | 1/main.cpp:480-489 | the matrix `draw` sends to the shader applies the latest rotations z, y, x, then the offsets z, y, x, then the projection |
| Items.BindKeys | 1/main.cpp:515-516 | `bindUp(up); bindDown(down)` on idle data records both keys and appends its two entries, in that order |
| Items.BindInit | 1/main.cpp:515-526 | `init`'s twelve calls record the keys a/x, c/r, e/q, z/s, d/s, w/s and grow the table by `Defaults`, in call order; only the twelve key fields change, so every value and step stays as it was; the invariant is kept |
| Items.DefaultsAt | 1/main.cpp:515-526 | after `init`, key s steps the three offsets down, in the order `ox`, `oy`, `oz`; each other key `init` names carries exactly one entry |
| Items.DefaultsElsewhere | 1/main.cpp:515-526 | a key `init` does not name gets no entry |
| Items.SharedDownKey | 1/main.cpp:522-526 | a key shared by three parameters' down directions steps each of them down once and fires their triggers in binding order |

## Left out

- OpenGL, GLEW and GLUT are not modelled: shaders, programs, uniforms, VAO set-up, `display`, `init`'s GL state and `main`. They are foreign calls whose effects cannot be seen from the program. The buffer upload is the `vbo` field; the draw count is `Item.DrawCount`.
- The files are not opened. `fopen` / `fread` become a byte-sequence input, and the shader sources are not modelled.
- `Items.Item.Load`: it clears `tri` before reading, whereas the source appends to the triangles already held (1/main.cpp:451); `Items.Item.LoadAsWritten` models the source as written.
- `Items.Item.Load` and `Items.Item.LoadAsWritten`: they require the input to hold every record its count announces (`Readable`). The source ignores `fread`'s results: on a short file the loop still pushes `n` triangles, whose unread coordinates stay 0 because `Vec4()` zero-fills (1/main.cpp:39), while `msg` and a partly read float are indeterminate. The model does not reproduce this.
- The count is a 32-bit integer, but `n*3*4*2` and `n*3*4*4` are computed unbounded. In the source `n*24` overflows `int` once n > 2³¹/24, about 89.5 million triangles; the model does not capture that.
- `ParamData::func_cnt` is a 32-bit `int` advanced by `func_cnt++` (1/main.cpp:186, 222), while the model's counter and ids are unbounded. Id uniqueness (`Globals.Valid()`) therefore relies on fewer than 2³¹ ids being handed out; the wrap-around after that is not modelled.
- A negative count makes `new float[n*24]` throw. The model reports it as `ok == false` with the buffer unchanged; `Items.Item.Load` leaves `tri` cleared and `Items.Item.LoadAsWritten` leaves `tri` as it was; the exception's propagation is not modelled.
- `Transforms.DrawOrder` and `Items.Item.Convert`: "applies sz first" reads `Mat4::val` as row-major acting on column vectors. The matrix is uploaded with `glUniformMatrix4fv(…, GL_FALSE, …)`, that is as column-major, and the shader that applies it is not part of this model, so the order the GPU effectively applies is not captured.
- Floating point is not modelled. `float` becomes `real` in parameter values and matrices, so `val += step` does not round. `acosf(-1)` is fixed to the float nearest π.
- `cosf` / `sinf` are parameters (`c`, `s`, `cos`, `sin`) and are not computed.
- Triggers are not closures. The `std::function` a trigger holds, and the `Mat4` it writes through a pointer, are replaced by the trace `Globals.calls`. `Param.Matrix` evaluates the kind's formula at the latest traced value; the text written to `std::clog` is dropped.
- `Bindings.KeyZeroLingers`: an entry bound to key 0 outlives its `Param`. Its closure captures the `mat` pointer that `~SpinX` and its siblings delete (1/main.cpp:251, 266), so pressing key code 0 afterwards would write freed memory. `init` never binds key 0, so this is latent; the model has no heap to show the use after free, only the stale entry.
- Allocation is not modelled: heap allocation of `Mat4` and `ParamData`, `delete`, and the leak of `ParamData` (the source never deletes it).
- The moved-from matrix pointers of `SpinX` … `OffsetZ` are not modelled.
- In the source `Item()` leaves `n` uninitialised; the model starts it at 0.
- A moved-from `name` or `vbo` (set to 0 in the source) is modelled as an empty sequence.
- The source's class hierarchy is collapsed. `Param` and its six subclasses become one class with a `kind`; the protected constructors become public.
- `Items.BindInit`: it requires the six data to be distinct and unbound, which holds right after `Item()` (`Item.constructor` ensures it). It is stated on the six data rather than as a method of the local `item`, whose later move into `items` is `Item.Move`.
- `Items.BindInit`: the model does not call `load("obj.stl")` or build `items`.

## Findings

| source | as written | input that shows it | evidently intended | confidence | as-written member | corrected member |
|---|---|---|---|---|---|---|
| 1/main.cpp:440-464 | `load` appends the new records to `tri` without clearing it, but sizes the buffer `new float[n*24]` from the new count alone; the copy loop then walks all of `tri`, so the normal cursor writes 12 floats per held triangle past the end | an item holding one triangle, loaded again with a one-triangle file: the buffer has 24 floats, and the second triangle's normal copy starts at float 24 (`BuildBuffer` reports `overrun`) | `tri` cleared at the start of `load` (or the buffer sized from `tri.size()`), so the buffer holds exactly the triangles of the file | medium: `init` loads only once, so this is latent; not executed | Items.Item.LoadAsWritten | Items.Item.Load |
