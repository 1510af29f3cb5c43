# Sphere mesh and render target of the light-probe compositor, in Dafny

This project models two pieces of the light-probe stitching tool's GPU layer.

- **The sphere mesh** (`gl-sphere.c`), in module `GlSphere`. The mesh is a UV sphere with `r` rows and `c` columns. Its vertex buffer holds the `(r+1) x (c+1)` grid points in row-major order. Its quad buffer holds `r*c` faces over that grid. Its line buffer holds the overlay: an equator ring on row `r/2` and meridian segments.
  - Each buffer object is an `array<Option<_>>`. A slot is `None` until something writes it, because `glBufferData` is called with no data and leaves the contents undefined.
  - `init_vert`, `init_quad` and `init_line` are methods with loops (nested in `init_vert` and `init_quad`; two in sequence in `init_line`). The loops advance a write pointer `p` one record at a time, as the C code does with `v++`, `q++` and `l++`.
  - Each method is proved against a layout function: `VertLayout`, `QuadLayout`, `LineLayout` or `LinesAsWritten`. The lemmas beside those functions state what the layout means: slot positions, chart coordinates, index ranges, corner structure, and the segments of the equator and the meridians.
  - Whether `glMapBuffer` succeeds is a parameter. When it fails, nothing is written.
  - Indices pass through a `GLushort` cast and are read back as `GL_UNSIGNED_SHORT`, so the model stores them as `Short(x) = x % 65536`. Every stored index names a vertex for any `r` and `c`. Each index is the corner's own slot exactly when `(r+1)(c+1) <= 65536`; with more vertices the cast truncates some of them.
- **The off-screen render target** (`gl-framebuffer.c`), in module `GlFramebuffer`.
  - Class `Framebuffer` has the cached dimensions `w`, `h` and `c` and the names `frame` and `color`.
  - Field `colorImage` records the arguments of the last `glTexImage2D` call on the colour texture.
  - A ghost counter `colorAllocations` counts calls to `size_color`.
  - `Valid()` is the cache invariant: the arguments of the last `glTexImage2D` call on the colour texture match the cached `(w, h, c)`.
  - The `in` and `ex` tables are sequences indexed by channel count. They are checked against an independent table of how many channels each OpenGL format carries.

Where the headers and the C files disagree, the model follows the C files:
- `gl-framebuffer.h:18-25` has no `c` field, but the C file caches `c`.
- `gl-framebuffer.h:31-32` declares two-argument `size` and `init`, but the C file's functions take three arguments.

Files: `wrappers.dfy` (the `Option` type), `sphere.dfy` and `framebuffer.dfy`.

## Model

| member | source | states |
|---|---|---|
| `GlSphere.Short` | gl-sphere.c:98-101 | The 16-bit index cast gives a value in [0, 65536). |
| `GlSphere.ShortKeeps` | gl-sphere.c:98-101 | The cast leaves an index unchanged if and only if the index lies in [0, 65536). |
| `GlSphere.VertSlots` | gl-sphere.c:158 | The vertex buffer is allocated (r+1)(c+1) records, one per grid point. |
| `GlSphere.QuadSlots` | gl-sphere.c:159 | The quad buffer is allocated r*c records, one per grid cell. |
| `GlSphere.LineSlots` | gl-sphere.c:160 | The line buffer is allocated 4r+c records: c equator segments and four meridian segments per row. |
| `GlSphere.ChartCoord` | gl-sphere.c:63-64 | The double quotient k/n is not finite (NaN or infinite in C) exactly when n = 0, and an exact rational otherwise. |
| `GlSphere.VertLayout` | gl-sphere.c:59-64 | The intended vertex buffer has exactly (r+1)(c+1) records. Slot k holds grid point (k / (c+1), k % (c+1)) with x = column/c and y = row/r. |
| `GlSphere.VertexAt` | gl-sphere.c:60-64 | Grid point (i, j), for 0 <= i <= r and 0 <= j <= c, is stored at slot i*(c+1)+j. That slot lies inside the (r+1)(c+1) records allocated. Its chart coordinates are x = j/c and y = i/r. |
| `GlSphere.VertexSlotsCover` | gl-sphere.c:158 | Every one of the (r+1)(c+1) allocated vertex slots is the slot of exactly the grid point (k / (c+1), k % (c+1)). So the vertex loop fills the buffer exactly. |
| `GlSphere.ChartCoordInUnitRange` | gl-sphere.c:63-64 | Along an axis of n >= 1 steps, the chart coordinate k/n is an exact value in [0, 1]. It is 0 exactly on the first row or column and 1 exactly on the last. |
| `GlSphere.ChartCoordIncreasing` | gl-sphere.c:73-74 | Chart coordinates increase strictly along a row and down a column. |
| `GlSphere.InitVert` | gl-sphere.c:52-82 | If the mapping succeeds, every vertex slot holds the grid layout's record (slot layout and chart coordinates). If the mapping fails, the buffer is unchanged. |
| `GlSphere.FaceQuad` | gl-sphere.c:98-101 | The face of cell (i, j) has corners (i, j), (i+1, j), (i+1, j+1), (i, j+1), each stored through the 16-bit cast. |
| `GlSphere.QuadLayout` | gl-sphere.c:94-101 | The intended quad buffer has exactly r*c records. Slot k holds the face of cell (k / c, k % c). |
| `GlSphere.QuadAt` | gl-sphere.c:95-96 | Face (i, j), for i < r and j < c, is quad record i*c+j, which lies inside the r*c records allocated. |
| `GlSphere.QuadIndicesInRange` | gl-sphere.c:98-101 | For every r and c, all four indices of every quad name a vertex in [0, (r+1)(c+1)). |
| `GlSphere.StoredVertex` | gl-sphere.c:98-101 | With at most 65536 vertices, every grid point's index passes the 16-bit cast unchanged. |
| `GlSphere.TruncatedBeyondShortRange` | gl-sphere.c:98-101 | With more than 65536 vertices (r, c >= 1), the third corner of the last face is not stored as vertex (r, c), so the cast does change an index. |
| `GlSphere.QuadCorners` | gl-sphere.c:98-101 | With at most 65536 vertices, the corners of face (i, j) satisfy b = a+(c+1), d = a+1 and c = b+1. a and d lie on row i, b and c on row i+1. a and b lie in column j, c and d in column j+1. |
| `GlSphere.InitQuad` | gl-sphere.c:87-106 | If the mapping succeeds, all r*c quad slots hold the face layout, with face (i, j) at slot i*c+j. If the mapping fails, the buffer is unchanged. |
| `GlSphere.EquatorLine` | gl-sphere.c:125-126 | Equator segment j joins vertex (r/2, j) to vertex (r/2, j+1), both stored through the 16-bit cast. |
| `GlSphere.MeridianLine` | gl-sphere.c:130-137 | The meridian segment of row i in column col joins vertex (i, col) to vertex (i+1, col), both stored through the 16-bit cast. |
| `GlSphere.MeridianColumn` | gl-sphere.c:120-121 | Meridian column m is one of 0, c/4, c/2 and c/2+c/4. Each lies in [0, c], and column 0 is the first. |
| `GlSphere.LineLayout` | gl-sphere.c:123-138 | The intended line buffer has exactly 4r+c records: c equator segments, then four meridian segments per row. |
| `GlSphere.LinesAsWritten` | gl-sphere.c:123-138 | The code as written stores exactly r+c line records: c equator segments, then for each row only the segment in column c/2+c/4. |
| `GlSphere.MeridianRecords` | gl-sphere.c:128-138 | The four intended records of row i sit at c+4i to c+4i+3 and join row i to row i+1 in columns 0, c/4, c/2 and c/2+c/4, as the four assignments compute them. |
| `GlSphere.EquatorSegment` | gl-sphere.c:123-127 | With at most 65536 vertices, line record j < c joins vertex (r/2, j) to vertex (r/2, j+1): b = a+1, both indices in range. The code as written and the intended layout agree on this record. |
| `GlSphere.MeridianSegment` | gl-sphere.c:128-138 | With at most 65536 vertices, in the intended layout, record c+4i+m joins (i, col) to (i+1, col), with b = a+(c+1). Here col is meridian column m, one of 0, c/4, c/2 and c/2+c/4. |
| `GlSphere.LineIndicesInRange` | gl-sphere.c:120-138 | Every index of every intended line record names a vertex in [0, (r+1)(c+1)). |
| `GlSphere.AsWrittenLineShortfall` | gl-sphere.c:128-138 | As written, the loops store r+c line records, which is 3r fewer than the 4r+c allocated. The draw count 8r+2c is two indices for every allocated record. |
| `GlSphere.AsWrittenLosesZeroMeridian` | gl-sphere.c:128-138 | With at most 65536 vertices, r >= 1 and c >= 2, no line record written by the code joins (0, 0) to (1, 0). The intended layout has that segment at record c. |
| `GlSphere.InitLineAsWritten` | gl-sphere.c:112-142 | If the mapping succeeds, the first c+r records hold the equator segments and then, per row, only the meridian at column c/2+c/4. The remaining records keep their old contents. |
| `GlSphere.LineBufferAsWritten` | gl-sphere.c:176-178 | A line buffer allocated and filled as the code is written has its last 3r of 4r+c records unwritten. |
| `GlSphere.InitLine` | gl-sphere.c:112-142 | If the mapping succeeds, each of the 4r+c allocated records holds the intended layout: c equator segments, then four meridian segments per row. If the mapping fails, the buffer is unchanged. |
| `GlSphere.Sphere.constructor` | gl-sphere.c:147-184 | The sphere keeps r and c. It gets fresh buffers of (r+1)(c+1), r*c and 4r+c records. The vertex and quad buffers hold their layouts. The line buffer holds the corrected `LineLayout` written by `InitLine`; the code as written would store `LinesAsWritten` instead, which `LineBufferAsWritten` models. A buffer whose mapping failed is entirely unwritten. |
| `GlSphere.Sphere.FillCount` | gl-sphere.c:224-240 | The quad draw count 4*r*c is four indices for each allocated quad record. |
| `GlSphere.Sphere.LineDrawCount` | gl-sphere.c:242-258 | The line draw count 8*r+2*c is two indices for each allocated line record. |
| `GlFramebuffer.InternalFormat` | gl-framebuffer.c:48-52 | in(c) is a float colour format with exactly c channels, and it is 0 (no format) exactly when c = 0. |
| `GlFramebuffer.ExternalFormatAsWritten` | gl-framebuffer.c:54-58 | ex(c) as written: every entry except c = 1 is a pixel format with exactly c channels, and it is 0 exactly when c = 0. |
| `GlFramebuffer.ExternalFormat` | gl-framebuffer.c:54-58 | ex(c), with GL_RED for one channel, is a pixel format with exactly c channels, and it is 0 exactly when c = 0. |
| `GlFramebuffer.ExternalFormatAsWrittenOneChannel` | gl-framebuffer.c:56 | The table as written maps one channel to GL_R, which is not a pixel format. All its other entries equal the intended table. |
| `GlFramebuffer.FormatsAgree` | gl-framebuffer.c:65 | For 1 <= c <= 4, the internal format and the pixel format passed to glTexImage2D both describe c channels, and neither is 0. |
| `GlFramebuffer.Framebuffer.Init` | gl-framebuffer.c:114-125 | Keeps the given names. If w, h and c are all nonzero, the dimensions equal the request after one allocation. Otherwise they are 0, 0, 0 and nothing is allocated. |
| `GlFramebuffer.Framebuffer.SizeColor` | gl-framebuffer.c:60-71 | The colour texture gets storage in(c) x w x h with pixel format ex(c). Counts one allocation. |
| `GlFramebuffer.Framebuffer.Size` | gl-framebuffer.c:89-112 | Afterwards w, h and c equal the request, and the frame and colour names are unchanged. A request equal to the cached dimensions changes nothing, so it is idempotent. Any other request reallocates the colour texture exactly once, for the new dimensions. The cache invariant is preserved. |
| `GlFramebuffer.Framebuffer.Copy` | gl-framebuffer.c:134-149 | Returns either nothing, when malloc fails, or a fresh buffer of w*h*c floats. |

## Left out

- Globe and polar vertex positions (gl-sphere.c:66-71, 76-77) are sin/cos floating-point values and are not modelled.
- GlSphere.InitVert: a vertex record is modelled only by its slot and its chart coordinates. The chart coordinates are exact rationals before the cast to `GLfloat`, so float rounding is not modelled.
- GlSphere.ChartCoord models `j / c` and `i / r` with a zero divisor as `NotFinite` (NaN in C). This happens for `c = 0` or `r = 0`.
- Mesh dimensions are natural numbers. For negative `r` or `c` the byte sizes passed to `glBufferData` are meaningless and GL rejects negative ones, so those inputs are not modelled.
- Buffer sizes are counted in records, not bytes. `sizeof (vert)` and a possible 32-bit overflow of the byte count are not modelled.
- Indices are stored as their 16-bit pattern. The signed `GLshort` field type is ignored, because the draw reads the bits back as unsigned.
- GL calls that only bind or release objects are not modelled: `glGenBuffers`, `glBindBuffer`, `glUnmapBuffer`, `gl_free_sphere`, `gl_free_framebuffer`, `glBindFramebuffer`, `glFramebufferTexture2D`.
- The draw routines `draw`, `gl_fill_*` and `gl_line_*` are modelled only by the element counts they pass.
- `test_framebuffer` (status logging), the `glTexParameteri` settings and `size_depth` are not modelled. The depth attachment is commented out in the source.
- GlFramebuffer.Framebuffer.SizeColor records the arguments of `glTexImage2D`. It does not model GL rejecting the call, for example with format 0 when c = 0.
- GlFramebuffer.Framebuffer.Copy: the pixel values read back by `glReadPixels` are not modelled, and neither is the read buffer selection. A 32-bit overflow of `w * h * c * sizeof (GLfloat)` is not modelled either.
- `gl-program.c` (shader compile and link wrappers with logging) and `lp-render.c` (an immediate-mode demo draw) hold no logic to state.
- The image store, compositor and export operations declared in `lp-render.h` have no implementation in the modelled files, so they are not part of this model.

## Findings

| source | as written | input that shows it | evidently intended | confidence | as-written member | corrected member |
|---|---|---|---|---|---|---|
| gl-sphere.c:128-138 | The meridian loop assigns `l->a`/`l->b` four times per row but advances `l` once. Only the column `c/2 + c/4` segment of each row survives, and r+c of the 4r+c allocated line records are written. `gl_line_*` still draws 8r+2c indices, so it reads 3r records that were never written. | r = 1, c = 4: 8 line records are allocated and 5 are written. The segment from vertex 0 to vertex 5 (the column-0 half of the 0° meridian loop) is missing. The draw reads all 8 records. | Advance `l` after each of the four assignments, so that each row gets segments in columns 0, c/4, c/2 and c/2 + c/4. This fills exactly the 4r+c records allocated and drawn. | high; not executed | `GlSphere.AsWrittenLosesZeroMeridian` | `GlSphere.InitLine` |
| gl-framebuffer.c:56 | `ex(1)` is `GL_R` (0x2002), the texture-coordinate name used by `glTexGen`, not a pixel format. `glTexImage2D` and `glReadPixels` reject it, so a one-channel target gets no storage and cannot be read back. | c = 1 | `GL_RED` (0x1903), the one-channel pixel format, to match `GL_R32F` in `in(1)` | likely; not executed | `GlFramebuffer.ExternalFormatAsWrittenOneChannel` | `GlFramebuffer.ExternalFormat` |

The rest of the model uses the corrected definitions: `Sphere.constructor` fills the line buffer with `InitLine`, and `Framebuffer.SizeColor` uses `ExternalFormat`.
