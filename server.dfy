/** The flat-file backend of server.js: three module-level arrays (users,
    products, sales) loaded once and mutated by the route handlers. Each
    handler is a method of `Tienda`; a request's path parameters arrive
    already parsed (`None` where `parseInt`/`parseFloat` gives NaN), its JSON
    body fields arrive as options, and the file write that follows a mutation
    is the boolean `writeOk` (false when `writeData` throws). */
module Server {
  import opened Wrappers
  import opened Seqs

  datatype User = User(id: int, nombre: string, apellido: string, email: string, contrasena: string)

  /** `tipo` is "" both for a product without a type and for an empty type:
      every use of it tests truthiness or compares it with a non-empty string. */
  datatype Product = Product(
    id: int, nombre: string, desc: string, precio: real,
    imagen: string, disponible: bool, tipo: string)

  datatype SaleLine = SaleLine(idProducto: int, cantidad: int, precioUnitario: real)

  /** `fecha` is a timestamp; no handler here reads it. */
  datatype Sale = Sale(id: int, idUsuario: int, fecha: int, total: real, productos: seq<SaleLine>)

  /** The JSON body of PUT /productos/:id: each field sent or not. */
  datatype ProductPatch = ProductPatch(
    id: Option<int>, nombre: Option<string>, desc: Option<string>, precio: Option<real>,
    imagen: Option<string>, disponible: Option<bool>, tipo: Option<string>)

  /** An HTTP answer: a JSON value, an empty 204, a `{mensaje}` error, or the
      409 of user deletion, which also lists the blocking sale ids. */
  datatype Reply<T> =
    | Ok(status: int, value: T)
    | NoContent
    | Fail(status: int, mensaje: string)
    | Conflict(mensaje: string, ventasAsociadas: seq<int>)

  const RangoNoNumerico := "Los parámetros desde y hasta deben ser números."
  const FaltanDatos := "Faltan datos requeridos para crear el usuario."
  const ErrorGuardarUsuario := "Error al guardar el nuevo usuario."
  const FaltanCredenciales := "Faltan email o contraseña."
  const CredencialesInvalidas := "Credenciales inválidas."
  const IdNoNumerico := "El ID debe ser numérico."
  const ProductoNoEncontrado := "Producto no encontrado."
  const ErrorActualizarProducto := "Error al actualizar el producto."
  const VentasAsociadasConflicto := "Conflicto: No se puede eliminar el usuario porque tiene ventas asociadas."
  const UsuarioNoEncontrado := "Usuario no encontrado."
  const ErrorEliminarUsuario := "Error al eliminar el usuario."

  /** JavaScript truthiness of a body field that should hold a string:
      absent and "" are both falsy. */
  predicate Truthy(field: Option<string>)
  {
    field.Some? && field.value != ""
  }

  predicate DistinctUserIds(us: seq<User>)
  {
    forall i, j :: 0 <= i < j < |us| ==> us[i].id != us[j].id
  }

  function PriceBetween(min: real, max: real): Product -> bool
  {
    (p: Product) => min <= p.precio && p.precio <= max
  }

  function ProductWithId(id: int): Product -> bool
  {
    (p: Product) => p.id == id
  }

  function UserWithId(id: int): User -> bool
  {
    (u: User) => u.id == id
  }

  function NotUserWithId(id: int): User -> bool
  {
    (u: User) => u.id != id
  }

  function Credentials(email: string, contrasena: string): User -> bool
  {
    (u: User) => u.email == email && u.contrasena == contrasena
  }

  function SaleOfUser(id: int): Sale -> bool
  {
    (v: Sale) => v.idUsuario == id
  }

  /** The id a new user gets: one more than the largest id in use, or 1 for
      an empty list. */
  function NextUserId(us: seq<User>): (id: int)
    ensures forall i :: 0 <= i < |us| ==> us[i].id < id
    ensures us == [] ==> id == 1
    ensures us != [] ==> exists i :: 0 <= i < |us| && id == us[i].id + 1
  {
    if |us| > 0 then
      var ids := seq(|us|, i requires 0 <= i < |us| => us[i].id);
      assert forall i :: 0 <= i < |us| ==> ids[i] == us[i].id;
      Max(ids) + 1
    else 1
  }

  /** The ids of the sales of user `id`, in ledger order. */
  function SaleIdsOfUser(ventas: seq<Sale>, id: int): (ids: seq<int>)
    ensures forall k :: k in ids <==> exists v :: v in ventas && v.idUsuario == id && v.id == k
    ensures ids == [] <==> forall v :: v in ventas ==> v.idUsuario != id
    ensures var vs := Filter(ventas, SaleOfUser(id));
      |ids| == |vs| && forall i :: 0 <= i < |ids| ==> ids[i] == vs[i].id
  {
    var vs := Filter(ventas, SaleOfUser(id));
    var ids := seq(|vs|, i requires 0 <= i < |vs| => vs[i].id);
    assert vs != [] ==> vs[0] in vs;
    assert forall i :: 0 <= i < |vs| ==> ids[i] == vs[i].id && vs[i] in vs;
    assert forall v :: v in vs ==> v.id in ids by {
      forall v | v in vs ensures v.id in ids {
        var i :| 0 <= i < |vs| && vs[i] == v;
        assert ids[i] == v.id;
      }
    }
    ids
  }

  /** `{ ...p, ...d }`: the fields sent in `d` overwrite those of `p`. */
  function Merge(p: Product, d: ProductPatch): (r: Product)
    ensures d == EmptyPatch ==> r == p
    ensures r == p <==>
      && (d.id.Some? ==> d.id.value == p.id)
      && (d.nombre.Some? ==> d.nombre.value == p.nombre)
      && (d.desc.Some? ==> d.desc.value == p.desc)
      && (d.precio.Some? ==> d.precio.value == p.precio)
      && (d.imagen.Some? ==> d.imagen.value == p.imagen)
      && (d.disponible.Some? ==> d.disponible.value == p.disponible)
      && (d.tipo.Some? ==> d.tipo.value == p.tipo)
  {
    Product(
      if d.id.Some? then d.id.value else p.id,
      if d.nombre.Some? then d.nombre.value else p.nombre,
      if d.desc.Some? then d.desc.value else p.desc,
      if d.precio.Some? then d.precio.value else p.precio,
      if d.imagen.Some? then d.imagen.value else p.imagen,
      if d.disponible.Some? then d.disponible.value else p.disponible,
      if d.tipo.Some? then d.tipo.value else p.tipo)
  }

  /** `{ ...a, ...b }` on two bodies. */
  function Combine(a: ProductPatch, b: ProductPatch): (ab: ProductPatch)
    ensures b == EmptyPatch ==> ab == a
    ensures a == EmptyPatch ==> ab == b
  {
    ProductPatch(
      if b.id.Some? then b.id else a.id,
      if b.nombre.Some? then b.nombre else a.nombre,
      if b.desc.Some? then b.desc else a.desc,
      if b.precio.Some? then b.precio else a.precio,
      if b.imagen.Some? then b.imagen else a.imagen,
      if b.disponible.Some? then b.disponible else a.disponible,
      if b.tipo.Some? then b.tipo else a.tipo)
  }

  const EmptyPatch := ProductPatch(None, None, None, None, None, None, None)

  /** A field the body sends takes the sent value; a field it omits keeps
      its value. */
  lemma MergeFields(p: Product, d: ProductPatch)
    ensures Merge(p, d).id == (if d.id.Some? then d.id.value else p.id)
    ensures Merge(p, d).precio == (if d.precio.Some? then d.precio.value else p.precio)
    ensures Merge(p, d).nombre == (if d.nombre.Some? then d.nombre.value else p.nombre)
    ensures Merge(p, d).desc == (if d.desc.Some? then d.desc.value else p.desc)
    ensures Merge(p, d).imagen == (if d.imagen.Some? then d.imagen.value else p.imagen)
    ensures Merge(p, d).disponible == (if d.disponible.Some? then d.disponible.value else p.disponible)
    ensures Merge(p, d).tipo == (if d.tipo.Some? then d.tipo.value else p.tipo)
  {
  }

  /** An empty body changes nothing; sending the same body twice is the same
      as sending it once; two updates in a row are one update with the later
      body spread over the earlier. */
  lemma MergeLaws(p: Product, a: ProductPatch, b: ProductPatch)
    ensures Merge(p, EmptyPatch) == p
    ensures Merge(Merge(p, a), a) == Merge(p, a)
    ensures Merge(Merge(p, a), b) == Merge(p, Combine(a, b))
  {
  }

  class Tienda {
    var usuarios: seq<User>
    var productos: seq<Product>
    var ventas: seq<Sale>

    /** The state once the three JSON files have been read. */
    constructor (usuarios: seq<User>, productos: seq<Product>, ventas: seq<Sale>)
      ensures this.usuarios == usuarios && this.productos == productos && this.ventas == ventas
    {
      this.usuarios := usuarios;
      this.productos := productos;
      this.ventas := ventas;
    }

    /** GET /productos */
    method ListarProductos() returns (r: Reply<seq<Product>>)
      ensures r.Ok? && r.status == 200 && r.value == productos
    {
      r := Ok(200, productos);
    }

    /** GET /usuarios */
    method ListarUsuarios() returns (r: Reply<seq<User>>)
      ensures r.Ok? && r.status == 200 && r.value == usuarios
    {
      r := Ok(200, usuarios);
    }

    /** GET /ventas: both branches of the handler answer with the ledger. */
    method ListarVentas() returns (r: Reply<seq<Sale>>)
      ensures r.Ok? && r.status == 200 && r.value == ventas
    {
      if |ventas| > 0 {
        r := Ok(200, ventas);
      } else {
        r := Ok(200, []);
      }
    }

    /** GET /productos/:desde/:hasta */
    method ProductosEnRango(desde: Option<real>, hasta: Option<real>) returns (r: Reply<seq<Product>>)
      ensures desde.None? || hasta.None? ==> r == Fail(400, RangoNoNumerico)
      ensures desde.Some? && hasta.Some? ==>
        && r.Ok? && r.status == 200
        && (forall p :: p in r.value <==> p in productos && desde.value <= p.precio <= hasta.value)
        && IsSubsequence(r.value, productos)
        && r.value == Filter(productos, PriceBetween(desde.value, hasta.value))
    {
      if desde.None? || hasta.None? {
        return Fail(400, RangoNoNumerico);
      }
      var filtrados := Filter(productos, PriceBetween(desde.value, hasta.value));
      FilterIsSubsequence(productos, PriceBetween(desde.value, hasta.value));
      r := Ok(200, filtrados);
    }

    /** POST /cargarUsuario. The new record is appended before the write, so
        it stays in memory when the write fails. */
    method CargarUsuario(
      nombre: Option<string>, apellido: Option<string>, email: Option<string>,
      contrasena: Option<string>, writeOk: bool)
      returns (r: Reply<User>)
      modifies this
      ensures productos == old(productos) && ventas == old(ventas)
      ensures !(Truthy(nombre) && Truthy(apellido) && Truthy(email) && Truthy(contrasena)) ==>
        r == Fail(400, FaltanDatos) && usuarios == old(usuarios)
      ensures Truthy(nombre) && Truthy(apellido) && Truthy(email) && Truthy(contrasena) ==>
        var nuevo := User(NextUserId(old(usuarios)), nombre.value, apellido.value, email.value, contrasena.value);
        && usuarios == old(usuarios) + [nuevo]
        && r == (if writeOk then Ok(201, nuevo) else Fail(500, ErrorGuardarUsuario))
      ensures DistinctUserIds(old(usuarios)) ==> DistinctUserIds(usuarios)
    {
      if !Truthy(nombre) || !Truthy(apellido) || !Truthy(email) || !Truthy(contrasena) {
        return Fail(400, FaltanDatos);
      }
      var nuevoId := NextUserId(usuarios);
      var nuevo := User(nuevoId, nombre.value, apellido.value, email.value, contrasena.value);
      usuarios := usuarios + [nuevo];
      if writeOk {
        r := Ok(201, nuevo);
      } else {
        r := Fail(500, ErrorGuardarUsuario);
      }
    }

    /** POST /login: the first user whose email and password both match. An
        unknown email and a wrong password get the very same 401. */
    method Login(email: Option<string>, contrasena: Option<string>) returns (r: Reply<int>)
      ensures !Truthy(email) || !Truthy(contrasena) ==> r == Fail(400, FaltanCredenciales)
      ensures Truthy(email) && Truthy(contrasena) ==>
        (r.Ok? <==> exists u :: u in usuarios && u.email == email.value && u.contrasena == contrasena.value)
      ensures Truthy(email) && Truthy(contrasena) && !r.Ok? ==> r == Fail(401, CredencialesInvalidas)
      ensures r.Ok? ==>
        && r.status == 200
        && exists i ::
             && 0 <= i < |usuarios| && r.value == usuarios[i].id
             && usuarios[i].email == email.value && usuarios[i].contrasena == contrasena.value
             && forall j :: 0 <= j < i ==> !(usuarios[j].email == email.value && usuarios[j].contrasena == contrasena.value)
    {
      if !Truthy(email) || !Truthy(contrasena) {
        return Fail(400, FaltanCredenciales);
      }
      var i := FindIndex(usuarios, Credentials(email.value, contrasena.value));
      if i >= 0 {
        r := Ok(200, usuarios[i].id);
      } else {
        r := Fail(401, CredencialesInvalidas);
      }
    }

    /** PUT /productos/:id: the first product with the id gets the body
        spread over it; the change stays in memory when the write fails. */
    method ActualizarProducto(id: Option<int>, datos: ProductPatch, writeOk: bool) returns (r: Reply<Product>)
      modifies this
      ensures usuarios == old(usuarios) && ventas == old(ventas)
      ensures id.None? ==> r == Fail(400, IdNoNumerico) && productos == old(productos)
      ensures id.Some? && (forall p :: p in old(productos) ==> p.id != id.value) ==>
        r == Fail(404, ProductoNoEncontrado) && productos == old(productos)
      ensures id.Some? && (exists p :: p in old(productos) && p.id == id.value) ==>
        var i := FindIndex(old(productos), ProductWithId(id.value));
        && 0 <= i < |old(productos)| && old(productos)[i].id == id.value
        && productos == old(productos)[i := Merge(old(productos)[i], datos)]
        && r == (if writeOk then Ok(200, productos[i]) else Fail(500, ErrorActualizarProducto))
    {
      if id.None? {
        return Fail(400, IdNoNumerico);
      }
      var indice := FindIndex(productos, ProductWithId(id.value));
      if indice == -1 {
        return Fail(404, ProductoNoEncontrado);
      }
      productos := productos[indice := Merge(productos[indice], datos)];
      if writeOk {
        r := Ok(200, productos[indice]);
      } else {
        r := Fail(500, ErrorActualizarProducto);
      }
    }

    /** DELETE /usuarios/:id. A user who owns a sale is never removed; the
        sales check comes before the existence check, so a missing user with
        sales also gets 409. */
    method EliminarUsuario(id: Option<int>, writeOk: bool) returns (r: Reply<()>)
      modifies this
      ensures productos == old(productos) && ventas == old(ventas)
      ensures id.None? ==> r == Fail(400, IdNoNumerico) && usuarios == old(usuarios)
      ensures id.Some? && (exists v :: v in ventas && v.idUsuario == id.value) ==>
        && r == Conflict(VentasAsociadasConflicto, SaleIdsOfUser(ventas, id.value))
        && r.ventasAsociadas != []
        && usuarios == old(usuarios)
      ensures (&& id.Some? && (forall v :: v in ventas ==> v.idUsuario != id.value)
               && (forall u :: u in old(usuarios) ==> u.id != id.value)) ==>
        r == Fail(404, UsuarioNoEncontrado) && usuarios == old(usuarios)
      ensures (&& id.Some? && (forall v :: v in ventas ==> v.idUsuario != id.value)
               && (exists u :: u in old(usuarios) && u.id == id.value)) ==>
        var i := FindIndex(old(usuarios), UserWithId(id.value));
        && 0 <= i < |old(usuarios)| && old(usuarios)[i].id == id.value
        && usuarios == old(usuarios)[..i] + old(usuarios)[i + 1..]
        && r == (if writeOk then NoContent else Fail(500, ErrorEliminarUsuario))
      ensures DistinctUserIds(old(usuarios)) ==> DistinctUserIds(usuarios)
    {
      if id.None? {
        return Fail(400, IdNoNumerico);
      }
      var asociadas := SaleIdsOfUser(ventas, id.value);
      if |asociadas| > 0 {
        return Conflict(VentasAsociadasConflicto, asociadas);
      }
      assert forall v :: v in ventas ==> v.idUsuario != id.value;
      var indice := FindIndex(usuarios, UserWithId(id.value));
      if indice == -1 {
        assert forall u :: u in usuarios ==> u.id != id.value;
        return Fail(404, UsuarioNoEncontrado);
      }
      ghost var antes := usuarios;
      RemoveAtKeepsDistinct(antes, indice);
      usuarios := usuarios[..indice] + usuarios[indice + 1..];
      r := if writeOk then NoContent else Fail(500, ErrorEliminarUsuario);
    }
  }

  /** Removing the one record with a given id from a list with distinct ids
      keeps the ids distinct. */
  lemma {:induction false} RemoveAtKeepsDistinct(us: seq<User>, i: nat)
    requires i < |us|
    ensures DistinctUserIds(us) ==> DistinctUserIds(us[..i] + us[i + 1..])
  {
  }

  /** When user ids are distinct, the splice done by DELETE /usuarios/:id
      is a filter: it removes the user with that id and keeps every other
      user, in order. */
  lemma {:induction false} DeleteIsFilter(us: seq<User>, id: int)
    requires DistinctUserIds(us)
    requires exists u :: u in us && u.id == id
    ensures var i := FindIndex(us, UserWithId(id));
      && 0 <= i < |us|
      && us[..i] + us[i + 1..] == Filter(us, NotUserWithId(id))
  {
    var i := FindIndex(us, UserWithId(id));
    forall j | 0 <= j < |us| && j != i ensures NotUserWithId(id)(us[j]) {
      assert us[i].id == id;
    }
    FilterDropsOne(us, NotUserWithId(id), i);
  }

  lemma {:induction false} DeleteRemovesExactlyThatUser(us: seq<User>, id: int)
    requires DistinctUserIds(us)
    requires exists u :: u in us && u.id == id
    ensures var i := FindIndex(us, UserWithId(id));
      && 0 <= i < |us|
      && (forall u :: u in us[..i] + us[i + 1..] <==> u in us && u.id != id)
      && IsSubsequence(us[..i] + us[i + 1..], us)
  {
    DeleteIsFilter(us, id);
    FilterIsSubsequence(us, NotUserWithId(id));
  }
}
