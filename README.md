# Tienda: flat-file backend, cart store and catalog filters

A Dafny model of the small e-commerce shop in this repository:

- **server.js** — the flat-file backend. Three module-level arrays hold the state: `usuarios`, `productos` and `ventas`. The route handlers filter them and mutate them in place. `Server.Tienda` is a class with those three sequences as fields and one method per handler: the price-range listing, registration, login, product update, user deletion and the three plain listings. A request's path parameters arrive already parsed, with `None` where `parseInt`/`parseFloat` gives NaN. Its JSON body fields arrive as `Option` values. The file write after a mutation is the boolean `writeOk`, false when the write throws.
- **public/js/cart.js** — the browser's cart and session slots in local storage. `Cart.Storage` holds the two slots, already decoded. Adding and removing read the cart slot, change the cart and write it back. Saving, clearing and logging out overwrite or empty a slot without reading it. `Added` and `Removed` are the functions that specify the cart operations.
- **public/js/main.js** — the catalog page's client-side filtering. `Catalog.AplicarFiltros` is the inclusive price filter followed by the optional exact type filter. `Catalog.TiposDelFiltro` is the list of types offered in the selector.
- `Seqs` holds the JavaScript library operations the three files use: `filter`, `findIndex`, `Math.max` and spreading a `Set`. It also proves the facts about them that the handlers rely on: order preservation, exact membership and counts, and first-match indices.

The model follows the code as written, including these behaviours a shop might be expected to have but this code does not:
- Registration does not check for a duplicate email.
- Registration rejects a missing `apellido` as well as the other three fields.
- Passwords are stored and compared as given, and the 201 reply returns the whole new record, password included.
- The login reply carries only `mensaje` and `usuarioId`, with no `nombre`.
- These files have no sale-creation handler. `GET /ventas` is the only sales route, and `Sale` only fixes the record's shape.

## Model

| member | source | states |
|---|---|---|
| Seqs.Filter | server.js:95 | `filter` keeps exactly the elements that pass the test: membership in the result iff membership in the input and passing |
| Seqs.FilterIsSubsequence | server.js:95 | the filtered list is an order-preserving subsequence of the input |
| Seqs.FilterCount | server.js:95 | each value that passes is kept as often as it occurs, every other value is dropped |
| Seqs.FilterIsUnique | server.js:95 | any subsequence with those counts is the filter itself, so the two facts above pin the result down completely |
| Seqs.FilterKeepsPairwise | public/js/main.js:66-72 | filtering never reorders: a relation between every earlier and later element still holds after filtering |
| Seqs.FilterFilter | public/js/main.js:91-99 | two filters in a row equal one filter by the conjunction |
| Seqs.FilterDropsOne | server.js:204 | when exactly one element fails the test, filtering equals splicing that element out |
| Seqs.FindIndex | server.js:160 | `findIndex` gives -1 iff no element matches, else the index of the first match |
| Seqs.Max | server.js:114 | `Math.max` over a non-empty list is one of its elements and no element exceeds it |
| Seqs.Distinct | public/js/main.js:66 | `[...new Set(s)]` holds the same values as `s`, none twice, ordered by first occurrence in `s` |
| Server.NextUserId | server.js:114 | the new user id is larger than every existing id; it is 1 for an empty list, else some existing id plus one (the maximum plus one) |
| Server.SaleIdsOfUser | server.js:188-192 | one id per sale of the user, in ledger order (the i-th id is the id of the user's i-th sale); an id is listed iff it belongs to a sale of the user; the list is empty iff the user has no sale |
| Server.Merge | server.js:168 | an empty body leaves the product as it was; the product is unchanged iff every field the body sends already has the sent value |
| Server.MergeFields | server.js:166-168 | `{...product, ...body}`: each of the seven fields takes the sent value when the body sends it (the id included) and keeps the old value when it omits it |
| Server.MergeLaws | server.js:166-168 | an empty body changes nothing, the same body twice is the same as once, and two updates compose into one |
| Server.Tienda.constructor | server.js:67-75 | the state is the three arrays as loaded |
| Server.Tienda.ListarProductos | server.js:80-82 | GET /productos answers 200 with the whole catalog |
| Server.Tienda.ListarUsuarios | server.js:100-103 | GET /usuarios answers 200 with every user record |
| Server.Tienda.ListarVentas | server.js:216-223 | GET /ventas answers 200 with the whole ledger on both branches, empty or not |
| Server.Tienda.ProductosEnRango | server.js:86-97 | a bound that is not a number gives 400 and no filtering; otherwise 200 with exactly the products where `desde <= precio <= hasta`, both ends inclusive, in catalog order |
| Server.Tienda.CargarUsuario | server.js:106-130 | a missing or empty nombre, apellido, email or contraseña gives 400 with `usuarios` unchanged; otherwise exactly one record with id `NextUserId` is appended and kept even when the write fails (500); distinct user ids stay distinct; products and sales unchanged |
| Server.Tienda.Login | server.js:133-148 | missing email or password gives 400; otherwise success iff some user matches both, answering the id of the first match; an unknown email and a wrong password give the identical 401 |
| Server.Tienda.ActualizarProducto | server.js:151-176 | a non-numeric id gives 400 and an unknown id gives 404, both with the catalog unchanged; otherwise only the first product with that id changes, to the body merged over it, and the change stays even when the write fails (500) |
| Server.Tienda.EliminarUsuario | server.js:179-212 | a non-numeric id gives 400; if any sale belongs to the id, the answer is 409 listing those sale ids in ledger order and `usuarios` is unchanged, checked before existence; otherwise an unknown id gives 404; otherwise the first user with the id is spliced out, others in order; distinct ids stay distinct |
| Server.RemoveAtKeepsDistinct | server.js:204 | splicing one record out keeps user ids distinct |
| Server.DeleteIsFilter | server.js:197-204 | with distinct ids, the findIndex-and-splice deletion equals filtering out the id |
| Server.DeleteRemovesExactlyThatUser | server.js:197-204 | with distinct ids, deletion removes exactly the user with that id and keeps every other user in order |
| Catalog.LowerBoundOf | public/js/main.js:83 | the lower price bound is the parsed `desde`, and 0 when it is empty or not a number |
| Catalog.UpperBoundOf | public/js/main.js:84 | there is no upper bound iff `hasta` is empty, not a number or 0; otherwise the bound is the parsed value |
| Catalog.BoundsRead | public/js/main.js:83-84 | an empty or unparsable `desde` is 0; an empty, unparsable or zero `hasta` is no bound (`0 \|\| Infinity`) |
| Catalog.AplicarFiltros | public/js/main.js:82-99 | a product is shown iff it is in the catalog, its price is within the bounds and its type matches when one is selected; never more products than the catalog has |
| Catalog.AplicarFiltrosIsOneFilter | public/js/main.js:82-99 | the price filter followed by the optional type filter is one filter by "price in range and (no type selected or type equal)" |
| Catalog.AplicarFiltrosSpec | public/js/main.js:82-99 | a product is shown iff `desde <= precio`, `precio <= hasta` (or no bound), and its `tipo` equals the selected type when one is selected; shown products keep catalog order and multiplicity |
| Catalog.ZeroUpperBoundIsNoBound | public/js/main.js:84 | typing 0 as the upper bound shows the same as leaving it empty |
| Catalog.TiposDelFiltro | public/js/main.js:64-76 | a type is offered iff it is non-empty and some product has it |
| Catalog.TiposDelFiltroSpec | public/js/main.js:64-76 | the selector offers each non-empty type of some product exactly once, in first-occurrence order |
| Cart.Added | public/js/cart.js:26-39 | after adding, the id is in the cart; the length grows by one iff the id was absent; every existing entry keeps its id and position |
| Cart.Removed | public/js/cart.js:64 | after removing, no entry has the id; every entry with another id is kept; the cart never grows |
| Cart.AddedPresent | public/js/cart.js:31-35 | adding an id already in the cart adds 1 to the quantity of its first entry; the length and every other entry are unchanged |
| Cart.AddedAbsent | public/js/cart.js:36-39 | adding an absent id appends `{id, quantity: 1}` at the end |
| Cart.AddedKeepsWellFormed | public/js/cart.js:31-39 | adding keeps ids unique and every quantity at least 1, and the id is then in the cart |
| Cart.RemovedSpec | public/js/cart.js:64 | removing keeps exactly the entries with another id, in order; removing an absent id leaves the cart unchanged |
| Cart.RemovedKeepsWellFormed | public/js/cart.js:64 | removing keeps ids unique and quantities at least 1 |
| Cart.RemoveUndoesFirstAdd | public/js/cart.js:26-66 | removing an id right after adding it for the first time restores the cart |
| Cart.Storage.GetCart | public/js/cart.js:9-12 | the stored cart, or `[]` when nothing is stored |
| Cart.Storage.GetUser | public/js/cart.js:76-79 | the stored session user, or null when nothing is stored |
| Cart.Storage.SaveCart | public/js/cart.js:18-20 | the cart slot then holds the given cart; the user slot is unchanged |
| Cart.Storage.AddToCart | public/js/cart.js:26-44 | the stored cart becomes `Added(old cart, id)`, a well-formed cart stays well-formed, and the user slot is unchanged |
| Cart.Storage.ClearCart | public/js/cart.js:49-51 | after clearing, `getCart` returns `[]`; the user slot is unchanged |
| Cart.Storage.RemoveFromCart | public/js/cart.js:58-68 | the stored cart becomes `Removed(old cart, id)`, a well-formed cart stays well-formed, and the user slot is unchanged |
| Cart.Storage.SaveUser | public/js/cart.js:72-74 | after `saveUser(u)`, `getUser()` returns `u`; the cart is unchanged |
| Cart.Storage.LogoutUser | public/js/cart.js:81-83 | after logging out, `getUser()` returns null; the cart is unchanged |

## Left out

- Reading and writing the JSON files (`readData`, `writeData`, `cargarDatosIniciales`) is file I/O. The constructor takes the loaded arrays, and a write's outcome is the `writeOk` parameter.
- The Express wiring, the JSON body parser, the catch-all 404 route and `app.listen` are HTTP plumbing.
- The exact string semantics of `parseInt` and `parseFloat` are not modelled, because they are library parsing. Parsed values are `Option` inputs. A bound that parses to an infinite value is not representable.
- Server.Tienda.ActualizarProducto: models only bodies whose fields are the product's own fields, with values of the right type. A body with other keys would add fields through the spread, and that is not modelled.
- Server.Tienda.CargarUsuario, Server.Tienda.ActualizarProducto, Server.Tienda.EliminarUsuario: each runs as one atomic step. In the code each handler yields at `await writeData` (server.js:125, 171, 207), so requests can interleave there, and the PUT reply reads `productos[indiceProducto]` after that await (server.js:172), possibly seeing another request's change. Concurrency is not modelled.
- Server.Tienda.CargarUsuario, Server.Tienda.Login, Server.Tienda.ActualizarProducto: body fields are strings (or the product field's own type) or absent. A JSON body may send other values: `0`, `false` or `null` fail the truthiness tests like a missing field, while `5` or `true` pass and are stored as sent. Such values are not modelled.
- Server.Tienda.Login: the success reply carries the user id but not the constant message text "Login exitoso".
- Product `tipo` is a string, with "" standing for both a missing type and an empty one. Every use of it is a truthiness test or a comparison with a non-empty string, so the two behave alike.
- JavaScript numbers are modelled as unbounded `int` (ids, quantities) or `real` (prices). Floating-point rounding is not modelled, and only price comparisons are used.
- Cart.Storage.AddToCart: the product id is an integer. A `parseInt` that gives NaN, which would append a fresh entry on every call, is not modelled.
- Local storage's JSON encoding and decoding, `alert` and `console.log` are not modelled. Each storage slot holds the decoded value.
- The DOM rendering and `fetch` calls of main.js are not modelled, and neither are the option elements `popularFiltroTipos` appends. The model keeps only the list of types they are built from.
- public/js/carrito.js is not part of this model. It holds DOM rendering, fetch calls and the display-only cart total. It stores `data.nombre` from the login reply, which server.js never sends.
- utils/auth.js (bcrypt and JWT wrappers), db/connect.js, db/models/*.js and seed.js are not part of this model. They are the database backend's connection, hashing, sessions and seeding. The record shapes in `Server` follow db/models.
- Sale creation, session expiry and password hashing have no code among these files.
