/**
 The document store (actors/store.py, MongoStore): a collection of nested documents.  Updates address a field by a
 dotted path that the database splits; reads take the document apart in Python, one subscript after the other.
 */
module DocumentStore {
  import opened Options
  import Text
  import WorkerRecords

  /** Stored field names are neither empty nor dotted. */
  type Field = name: string | name != "" && '.' !in name witness "_"

  datatype Value = Leaf(text: string) | Doc(fields: map<Field, Value>)

  type Fields = map<Field, Value>

  /** KeyError, TypeError and WriteError. */
  datatype Error = NoSuchField | NotADocument | BadUpdate

  datatype Result<T> = Ok(value: T) | Err(error: Error)

  /** A key, a list that holds just a key, or a key and the names of nested fields. */
  datatype Address =
    | Key(key: string)
    | KeyList(key: string)
    | Path(key: string, first: string, rest: seq<string>)

  // ---------------------------------------------------------------------------------------------
  // Dotted paths
  // ---------------------------------------------------------------------------------------------

  predicate Plain(name: string) {
    Text.Free(name, '.')
  }

  /** The path that an update is sent with, and the subscripts that a read applies. */
  function Dots(a: Address): seq<string> {
    if a.Path? then Text.Split(Text.Join([a.first] + a.rest, '.'), '.') else Text.Split(a.key, '.')
  }

  function Subscripts(a: Address): seq<string> {
    if a.Path? then [a.first] + a.rest else []
  }

  // ---------------------------------------------------------------------------------------------
  // Reading and updating one document
  // ---------------------------------------------------------------------------------------------

  function At(fields: Fields, name: string): Value
    requires name in fields
  {
    var field: Field := name;
    fields[field]
  }

  function Lookup(v: Value, names: seq<string>): Result<Value>
    decreases |names|
  {
    if names == [] then Ok(v)
    else match v
         case Leaf(_) => Err(NotADocument)
         case Doc(fields) =>
           if names[0] in fields then Lookup(At(fields, names[0]), names[1..]) else Err(NoSuchField)
  }

  /** The subscripts before number n give a value that number n does not apply to, or does not find its name in. */
  ghost predicate StopsAt(v: Value, names: seq<string>, n: nat, error: Error) {
    n < |names| && Lookup(v, names[..n]).Ok? &&
    match Lookup(v, names[..n]).value
    case Leaf(_) => error == NotADocument
    case Doc(fields) => names[n] !in fields && error == NoSuchField
  }

  lemma StopsBelow(v: Value, names: seq<string>, n: nat, error: Error)
    requires names != [] && v.Doc? && names[0] in v.fields
    ensures StopsAt(v, names, n + 1, error) <==> StopsAt(At(v.fields, names[0]), names[1..], n, error)
    ensures !StopsAt(v, names, 0, error)
  {
    assert names[..0] == [];
    if n + 1 < |names| {
      assert names[..n + 1][0] == names[0] && names[..n + 1][1..] == names[1..][..n];
    }
  }

  lemma NothingBelow(v: Value, names: seq<string>)
    requires names != [] && (v.Leaf? || names[0] !in v.fields)
    ensures forall n :: 0 < n <= |names| ==> Lookup(v, names[..n]).Err?
  {
    forall n | 0 < n <= |names| ensures Lookup(v, names[..n]).Err? {
      assert names[..n][0] == names[0];
    }
  }

  /** A read fails exactly at the first subscript that cannot be applied, and that says how it fails. */
  lemma {:induction false} LookupFailsIff(v: Value, names: seq<string>, error: Error)
    ensures Lookup(v, names) == Err(error) <==> exists n: nat :: StopsAt(v, names, n, error)
    decreases |names|
  {
    if names != [] {
      assert names[..0] == [];
      if v.Doc? && names[0] in v.fields {
        var inner := At(v.fields, names[0]);
        LookupFailsIff(inner, names[1..], error);
        forall n: nat ensures StopsAt(v, names, n + 1, error) <==> StopsAt(inner, names[1..], n, error) {
          StopsBelow(v, names, n, error);
        }
        if n: nat :| StopsAt(inner, names[1..], n, error) {
          assert StopsAt(v, names, n + 1, error);
        }
        if n: nat :| StopsAt(v, names, n, error) {
          assert n > 0 && StopsAt(inner, names[1..], n - 1, error);
        }
      } else {
        NothingBelow(v, names);
        assert StopsAt(v, names, 0, if v.Leaf? then NotADocument else NoSuchField);
      }
    }
  }

  /** A path that the database accepts in an update. */
  predicate Accepted(path: seq<string>) {
    path != [] && forall i :: 0 <= i < |path| ==> path[i] != "" && Plain(path[i])
  }

  /** $set: missing documents on the way are created, but a plain value on the way is an error. */
  function Put(fields: Fields, path: seq<string>, x: Value): Result<Fields>
    requires Accepted(path)
    decreases |path|
  {
    var name: Field := path[0];
    if |path| == 1 then Ok(fields[name := x])
    else
      var below := if name in fields then fields[name] else Doc(map[]);
      match below
      case Leaf(_) => Err(BadUpdate)
      case Doc(inner) =>
        match Put(inner, path[1..], x)
        case Ok(changed) => Ok(fields[name := Doc(changed)])
        case Err(e) => Err(e)
  }

  /** $unset: nothing happens when the field, or a document on the way, is not there. */
  function Remove(fields: Fields, path: seq<string>): Fields
    requires Accepted(path)
    decreases |path|
  {
    var name: Field := path[0];
    if name !in fields then fields
    else if |path| == 1 then map k | k in fields && k != name :: fields[k]
    else match fields[name]
         case Leaf(_) => fields
         case Doc(inner) => fields[name := Doc(Remove(inner, path[1..]))]
  }

  /** $set with a whole document: its fields are merged into the stored ones. */
  function Merge(fields: Fields, written: Fields): Fields {
    map k | k in fields.Keys + written.Keys :: if k in written then written[k] else fields[k]
  }

  /** Two paths that part somewhere: neither leads through the other. */
  ghost predicate Part(p: seq<string>, q: seq<string>) {
    exists i :: 0 <= i < |p| && i < |q| && p[i] != q[i] && p[..i] == q[..i]
  }

  lemma PartBelow(p: seq<string>, q: seq<string>)
    requires Part(p, q) && p[0] == q[0]
    ensures Part(p[1..], q[1..])
  {
    var i :| 0 <= i < |p| && i < |q| && p[i] != q[i] && p[..i] == q[..i];
    assert p[1..][..i-1] == p[..i][1..] && q[1..][..i-1] == q[..i][1..];
    assert p[1..][i-1] != q[1..][i-1];
  }

  ghost predicate Blocks(fields: Fields, path: seq<string>, n: nat) {
    0 < n < |path| && Lookup(Doc(fields), path[..n]).Ok? && Lookup(Doc(fields), path[..n]).value.Leaf?
  }

  lemma BlocksBelow(fields: Fields, path: seq<string>, n: nat)
    requires path != [] && path[0] in fields && At(fields, path[0]).Doc?
    ensures Blocks(fields, path, n + 1) <==> n > 0 && Blocks(At(fields, path[0]).fields, path[1..], n)
  {
    if n + 1 < |path| {
      var upper := path[..n+1];
      assert upper[0] == path[0] && upper[1..] == path[1..][..n];
      assert Lookup(Doc(fields), upper) == Lookup(At(fields, path[0]), path[1..][..n]);
      if n == 0 {
        assert path[1..][..n] == [];
      }
    }
  }

  /** An accepted update fails exactly when a proper prefix of its path holds a plain value. */
  lemma {:induction false} PutFailsIff(fields: Fields, path: seq<string>, x: Value)
    requires Accepted(path)
    ensures Put(fields, path, x).Err? <==> exists n: nat :: Blocks(fields, path, n)
    decreases |path|
  {
    if |path| > 1 {
      assert forall n :: 0 < n < |path| ==> path[..n][0] == path[0] && path[..n][1..] == path[1..][..n-1];
      if path[0] in fields {
        match At(fields, path[0])
        case Leaf(_) => assert Blocks(fields, path, 1);
        case Doc(inner) =>
          PutFailsIff(inner, path[1..], x);
          forall n: nat ensures Blocks(fields, path, n + 1) <==> n > 0 && Blocks(inner, path[1..], n) {
            BlocksBelow(fields, path, n);
          }
          if n: nat :| Blocks(inner, path[1..], n) {
            assert Blocks(fields, path, n + 1);
          }
          if n: nat :| Blocks(fields, path, n) {
            assert Blocks(inner, path[1..], n - 1);
          }
      } else {
        PutFailsIff(map[], path[1..], x);
        forall n: nat ensures !Blocks(map[], path[1..], n) {
          if 0 < n < |path[1..]| {
            assert path[1..][..n] != [];
          }
        }
      }
    }
  }

  /** Reading at or below a field after setting it reads the value. */
  lemma {:induction false} LookupAfterPut(fields: Fields, path: seq<string>, x: Value, below: seq<string>)
    requires Accepted(path) && Put(fields, path, x).Ok?
    ensures Lookup(Doc(Put(fields, path, x).value), path + below) == Lookup(x, below)
    decreases |path|
  {
    assert (path + below)[1..] == path[1..] + below;
    if |path| == 1 {
      assert path[1..] + below == below;
    } else {
      var inner := if path[0] in fields then At(fields, path[0]).fields else map[];
      LookupAfterPut(inner, path[1..], x, below);
    }
  }

  /** Setting a field changes nothing on paths that part from its path. */
  lemma {:induction false} PutElsewhere(fields: Fields, path: seq<string>, x: Value, other: seq<string>)
    requires Accepted(path) && Put(fields, path, x).Ok? && Part(path, other)
    ensures Lookup(Doc(Put(fields, path, x).value), other) == Lookup(Doc(fields), other)
    decreases |path|
  {
    if path[0] == other[0] {
      PartBelow(path, other);
      var inner := if path[0] in fields then At(fields, path[0]).fields else map[];
      PutElsewhere(inner, path[1..], x, other[1..]);
    }
  }

  /** After removing a field it cannot be read, and nothing changed on paths that part from its path. */
  lemma {:induction false} LookupAfterRemove(fields: Fields, path: seq<string>, other: seq<string>)
    requires Accepted(path)
    ensures Lookup(Doc(Remove(fields, path)), path).Err?
    ensures Part(path, other) ==> Lookup(Doc(Remove(fields, path)), other) == Lookup(Doc(fields), other)
    decreases |path|
  {
    if |path| > 1 && path[0] in fields && At(fields, path[0]).Doc? {
      if Part(path, other) && path[0] == other[0] {
        PartBelow(path, other);
      }
      LookupAfterRemove(At(fields, path[0]).fields, path[1..], if other == [] then [] else other[1..]);
    }
  }

  /** Removing a field that was just added to an existing document gives the document back. */
  lemma {:induction false} RemoveUndoesPut(fields: Fields, path: seq<string>, x: Value)
    requires Accepted(path) && Put(fields, path, x).Ok? && Lookup(Doc(fields), path).Err?
    requires |path| == 1 || (Lookup(Doc(fields), path[..|path|-1]).Ok?)
    ensures Remove(Put(fields, path, x).value, path) == fields
    decreases |path|
  {
    if |path| > 1 {
      assert path[..|path|-1][1..] == path[1..][..|path[1..]|-1];
      RemoveUndoesPut(At(fields, path[0]).fields, path[1..], x);
    }
  }

  /** A dotted name never leads anywhere. */
  lemma {:induction false} DottedNameIsNotFound(v: Value, names: seq<string>, i: nat)
    requires i < |names| && !Plain(names[i])
    ensures Lookup(v, names).Err?
    decreases |names|
  {
    if i > 0 && v.Doc? && names[0] in v.fields {
      DottedNameIsNotFound(At(v.fields, names[0]), names[1..], i - 1);
    }
  }

  // ---------------------------------------------------------------------------------------------
  // The operations of the store, on the document with the key of the address
  // ---------------------------------------------------------------------------------------------

  function Upsert(doc: Option<Fields>): Fields {
    if doc.Some? then doc.value else map[]
  }

  function Get(doc: Option<Fields>, a: Address): Result<Value> {
    match doc
    case None => Err(NoSuchField)
    case Some(fields) => Lookup(Doc(fields), Subscripts(a))
  }

  function Set(doc: Option<Fields>, a: Address, x: Value): Result<Fields> {
    if a.Key? && x.Doc? then Ok(Merge(Upsert(doc), x.fields))
    else if !Accepted(Dots(a)) then Err(BadUpdate)
    else Put(Upsert(doc), Dots(a), x)
  }

  /** The address has length one: a list that holds just a key, but also a key of one letter. */
  predicate IsSingle(a: Address) {
    a.KeyList? || (a.Key? && |a.key| == 1)
  }

  /**
   What was added, if anything; a document that is there is left alone, whatever fields it has.  Only at an address of
   length one is a whole document added as it is, and only there does an update that the database refuses raise.
   */
  function AddIfEmpty(doc: Option<Fields>, a: Address, x: Value): Result<Option<Fields>> {
    if IsSingle(a) && x.Doc? then Ok(if doc.Some? then None else Some(x.fields))
    else if !Accepted(Dots(a)) then (if IsSingle(a) then Err(BadUpdate) else Ok(None))
    else if doc.Some? then Ok(None)
    else match Put(map[], Dots(a), x)
         case Ok(fields) => Ok(Some(fields))
         case Err(e) => Err(e)
  }

  /** The popped value and what is left; popping a field of a missing document subscripts None. */
  function Pop(doc: Option<Fields>, a: Address): (Result<Value>, Option<Fields>) {
    if !a.Path? then
      (if doc.Some? then Ok(Doc(doc.value)) else Err(NoSuchField), None)
    else if !Accepted(Dots(a)) then (Err(BadUpdate), doc)
    else match doc
         case None => (Err(NotADocument), None)
         case Some(fields) => (Lookup(Doc(fields), Subscripts(a)), Some(Remove(fields, Dots(a))))
  }

  predicate PlainAddress(a: Address) {
    a.Path? ==> Plain(a.first) && forall i :: 0 <= i < |a.rest| ==> Plain(a.rest[i])
  }

  /** What was set at a path can be read at that path exactly when no name in it has a dot. */
  lemma GetAfterSetIff(doc: Option<Fields>, a: Address, x: Value)
    requires a.Path? && Set(doc, a, x).Ok?
    ensures Get(Some(Set(doc, a, x).value), a) == Ok(x) <==> PlainAddress(a)
  {
    var names := [a.first] + a.rest;
    Text.SplitJoinIff(names, '.');
    if PlainAddress(a) {
      LookupAfterPut(Upsert(doc), names, x, []);
      assert names + [] == names;
    } else {
      var i :| 0 <= i < |names| && !Plain(names[i]);
      DottedNameIsNotFound(Doc(Set(doc, a, x).value), names, i);
    }
  }

  /** Other fields keep what they had, through any two addresses of one document that part. */
  lemma SetElsewhere(doc: Option<Fields>, a: Address, x: Value, b: Address)
    requires a.Path? && b.Path? && PlainAddress(a) && Set(doc, a, x).Ok? && Part(Subscripts(a), Subscripts(b))
    ensures var after := Get(Some(Set(doc, a, x).value), b);
            after == Get(doc, b)
  {
    Text.SplitJoinIff([a.first] + a.rest, '.');
    PutElsewhere(Upsert(doc), Dots(a), x, Subscripts(b));
  }

  /** Addresses in one document whose paths part. */
  ghost predicate Apart(a: Address, b: Address) {
    a.Path? && b.Path? && a.key == b.key && Part(Subscripts(a), Subscripts(b))
  }

  /**
   Writing a whole document merges: afterwards the key reads as the written document exactly when it has all fields
   that were there before.
   */
  lemma WholeWriteMerges(doc: Option<Fields>, key: string, written: Fields)
    ensures var after := Set(doc, Key(key), Doc(written)).value;
            (forall k :: k in written ==> k in after && after[k] == written[k]) &&
            (forall k :: k !in written ==>
               (k in after <==> k in Upsert(doc)) && (k in after ==> after[k] == Upsert(doc)[k])) &&
            (Get(Some(after), Key(key)) == Ok(Doc(written)) <==> Upsert(doc).Keys <= written.Keys)
  {
    var after := Merge(Upsert(doc), written);
    assert after.Keys == Upsert(doc).Keys + written.Keys;
    if Upsert(doc).Keys <= written.Keys {
      assert after == written;
    }
  }

  /** Popping a field is reading it and deleting it, for names without dots; the rest of the document stays. */
  lemma PopReadsAndDeletes(fields: Fields, a: Address, b: Address)
    requires a.Path? && PlainAddress(a) && Accepted(Subscripts(a))
    ensures var (popped, left) := Pop(Some(fields), a);
            popped == Get(Some(fields), a) && left.Some? && Get(left, a).Err? &&
            (b.Path? && Part(Subscripts(a), Subscripts(b)) ==> Get(left, b) == Get(Some(fields), b))
  {
    Text.SplitJoinIff([a.first] + a.rest, '.');
    LookupAfterRemove(fields, Subscripts(a), Subscripts(b));
  }

  /** After a deletion by path the field is not found, and parting addresses are as before. */
  lemma RemovedIsGone(fields: Fields, a: Address)
    requires a.Path? && PlainAddress(a) && Accepted(Dots(a))
    ensures Dots(a) == Subscripts(a)
    ensures Get(Some(Remove(fields, Dots(a))), a).Err?
    ensures forall b :: Apart(a, b) ==> Get(Some(Remove(fields, Dots(a))), b) == Get(Some(fields), b)
  {
    Text.SplitJoinIff([a.first] + a.rest, '.');
    LookupAfterRemove(fields, Subscripts(a), []);
    forall b | Apart(a, b) ensures Get(Some(Remove(fields, Dots(a))), b) == Get(Some(fields), b) {
      LookupAfterRemove(fields, Subscripts(a), Subscripts(b));
    }
  }

  /** In a new document nothing is in the way. */
  lemma PutInNewDocument(path: seq<string>, x: Value)
    requires Accepted(path)
    ensures Put(map[], path, x).Ok? && Lookup(Doc(Put(map[], path, x).value), path) == Ok(x)
  {
    PutFailsIff(map[], path, x);
    forall n: nat ensures !Blocks(map[], path, n) {
      if 0 < n < |path| {
        assert path[..n] != [];
      }
    }
    LookupAfterPut(map[], path, x, []);
    assert path + [] == path;
  }

  /**
   A value is added exactly when the whole document is missing: a document without the field is not enough, although
   the field does not exist.
   */
  lemma AddsOnlyMissingDocuments(doc: Option<Fields>, a: Address, x: Value)
    requires a.Path? && PlainAddress(a) && Accepted(Subscripts(a))
    ensures var added := AddIfEmpty(doc, a, x);
            added.Ok? && (added.value.Some? <==> doc.None?) &&
            (added.value.Some? ==> Get(added.value, a) == Ok(x))
  {
    var names := [a.first] + a.rest;
    Text.SplitJoinIff(names, '.');
    PutInNewDocument(names, x);
  }

  // ---------------------------------------------------------------------------------------------
  // The documents of the worker protocol
  // ---------------------------------------------------------------------------------------------

  function StatusCode(s: WorkerRecords.Status): string {
    match s
    case Requested => "REQUESTED"
    case SpawnerSetup => "SPAWNER SETUP"
    case PullingImage => "PULLING IMAGE"
    case CreatingContainer => "CREATING CONTAINER"
    case UpdatingStore => "UPDATING STORE"
    case Ready => "READY"
    case Busy => "BUSY"
    case ShutdownRequested => "SHUTDOWN_REQUESTED"
    case ShuttingDown => "SHUTTING_DOWN"
  }

  function StatusOf(text: string): Option<WorkerRecords.Status> {
    match text
    case "REQUESTED" => Some(WorkerRecords.Requested)
    case "SPAWNER SETUP" => Some(WorkerRecords.SpawnerSetup)
    case "PULLING IMAGE" => Some(WorkerRecords.PullingImage)
    case "CREATING CONTAINER" => Some(WorkerRecords.CreatingContainer)
    case "UPDATING STORE" => Some(WorkerRecords.UpdatingStore)
    case "READY" => Some(WorkerRecords.Ready)
    case "BUSY" => Some(WorkerRecords.Busy)
    case "SHUTDOWN_REQUESTED" => Some(WorkerRecords.ShutdownRequested)
    case "SHUTTING_DOWN" => Some(WorkerRecords.ShuttingDown)
    case _ => None
  }

  const ACTOR_ID: Field := "actor_id"
  const STATUS: Field := "status"
  const HOST_ID: Field := "host_id"

  function TextAt(fields: Fields, name: Field): Option<string> {
    if name in fields && fields[name].Leaf? then Some(fields[name].text) else None
  }

  /** The record of the protocol model that a stored worker document stands for. */
  function RecordOf(doc: Option<Fields>): Option<WorkerRecords.Record> {
    match doc
    case None => None
    case Some(fields) =>
      var status := TextAt(fields, STATUS);
      Some(WorkerRecords.Record(TextAt(fields, ACTOR_ID),
                                if status.Some? then StatusOf(status.value) else None,
                                TextAt(fields, HOST_ID)))
  }

  /** The document of request_worker, and that of add_worker: a description of the container, without an actor id. */
  function RequestedDoc(tenant: string, id: string, actor: string): Fields {
    map["status" := Leaf("REQUESTED"), "tenant" := Leaf(tenant), "id" := Leaf(id), "actor_id" := Leaf(actor)]
  }

  predicate IsAddedDoc(fields: Fields, host: string) {
    ACTOR_ID !in fields && TextAt(fields, STATUS) == Some("READY") && TextAt(fields, HOST_ID) == Some(host)
  }

  /** The three writes of the protocol do to the records what the protocol model says. */
  lemma RequestRefines(doc: Option<Fields>, key: string, tenant: string, id: string, actor: string)
    ensures RecordOf(Some(Set(doc, Key(key), Doc(RequestedDoc(tenant, id, actor))).value))
         == WorkerRecords.Request(RecordOf(doc), actor)
  {
  }

  lemma AddRefines(doc: Option<Fields>, key: string, written: Fields, host: string)
    requires IsAddedDoc(written, host)
    ensures RecordOf(Some(Set(doc, Key(key), Doc(written)).value)) == WorkerRecords.Add(RecordOf(doc), host)
  {
  }

  lemma StatusCodesAreRead(s: WorkerRecords.Status)
    ensures StatusOf(StatusCode(s)) == Some(s)
  {
  }

  lemma SetOneField(doc: Option<Fields>, key: string, name: Field, x: Value)
    ensures Set(doc, Path(key, name, []), x) == Ok(Upsert(doc)[name := x])
  {
    Text.SplitJoinIff([name], '.');
    assert Text.Join([name], '.') == name;
    assert Dots(Path(key, name, [])) == [name] by { assert [name] + [] == [name]; }
    assert Accepted([name]);
  }

  /** The first name of a path is that of the outer field. */
  lemma SetNestedField(fields: Fields, key: string, name: Field, inner: Fields, field: Field, x: Value)
    requires name in fields && fields[name] == Doc(inner)
    ensures Set(Some(fields), Path(key, name, [field]), x) == Ok(fields[name := Doc(inner[field := x])])
    ensures Get(Some(fields), Path(key, name, [field]))
         == if field in inner then Ok(inner[field]) else Err(NoSuchField)
  {
    var path := [name, field];
    assert [name] + [field] == path && path[1..] == [field] && path[1..][1..] == [];
    Text.SplitJoinIff(path, '.');
    assert Dots(Path(key, name, [field])) == path;
    assert Put(inner, path[1..], x) == Ok(inner[field := x]);
    assert Subscripts(Path(key, name, [field])) == path && Lookup(Doc(fields), path) == Lookup(Doc(inner), path[1..]);
    if field in inner {
      assert Lookup(Doc(inner), path[1..]) == Lookup(inner[field], []);
    }
  }

  lemma StatusWriteRefines(doc: Option<Fields>, key: string, s: WorkerRecords.Status)
    ensures Set(doc, Path(key, STATUS, []), Leaf(StatusCode(s))).Ok?
    ensures RecordOf(Some(Set(doc, Path(key, STATUS, []), Leaf(StatusCode(s))).value))
         == Some(WorkerRecords.Upsert(RecordOf(doc)).(status := Some(s)))
  {
    SetOneField(doc, key, STATUS, Leaf(StatusCode(s)));
    StatusCodesAreRead(s);
    var after := Upsert(doc)[STATUS := Leaf(StatusCode(s))];
    assert TextAt(after, STATUS) == Some(StatusCode(s));
    assert TextAt(after, ACTOR_ID) == TextAt(Upsert(doc), ACTOR_ID);
    assert TextAt(after, HOST_ID) == TextAt(Upsert(doc), HOST_ID);
  }

  /** A shutdown status is written by path, and that is what the protocol model says, also for a missing document. */
  lemma ShutdownWriteRefines(doc: Option<Fields>, key: string, s: WorkerRecords.Status)
    requires s == WorkerRecords.ShutdownRequested || s == WorkerRecords.ShuttingDown
    ensures Set(doc, Path(key, STATUS, []), Leaf(StatusCode(s))).Ok?
    ensures RecordOf(Some(Set(doc, Path(key, STATUS, []), Leaf(StatusCode(s))).value))
         == WorkerRecords.UpdateStatus(RecordOf(doc), s)
  {
    StatusWriteRefines(doc, key, s);
    WorkerRecords.ShutdownStatusLands(RecordOf(doc), s);
  }

  /** The database compares a field with a text, or with null, which a missing field equals. */
  predicate FieldEquals(fields: Fields, name: Field, text: Option<string>) {
    match text
    case Some(t) => name in fields && fields[name] == Leaf(t)
    case None => name !in fields
  }

  /** The two predecessors in the filter of the status update, in the codes that are stored. */
  function PredecessorCodes(s: WorkerRecords.Status): (string, Option<string>)
    requires s.SpawnerSetup? || s.PullingImage? || s.CreatingContainer? || s.UpdatingStore? || s.Ready? || s.Busy?
  {
    match s
    case SpawnerSetup => ("REQUESTED", None)
    case PullingImage => ("SPAWNER SETUP", None)
    case CreatingContainer => ("PULLING IMAGE", None)
    case UpdatingStore => ("CREATING CONTAINER", None)
    case Ready => ("UPDATING STORE", Some("BUSY"))
    case Busy => ("READY", None)
  }

  /** An update with a filter: no document is created, and only a matching one is written. */
  function UpdateMatching(doc: Option<Fields>, first: string, second: Option<string>, code: string): Option<Fields> {
    match doc
    case None => None
    case Some(fields) =>
      if FieldEquals(fields, STATUS, Some(first)) || FieldEquals(fields, STATUS, second) then
        Some(fields[STATUS := Leaf(code)])
      else doc
  }

  predicate KnownStatus(doc: Option<Fields>) {
    doc.Some? && STATUS in doc.value ==> doc.value[STATUS].Leaf? && StatusOf(doc.value[STATUS].text).Some?
  }

  lemma CodeIsRead(text: string, s: WorkerRecords.Status)
    ensures StatusOf(text) == Some(s) <==> text == StatusCode(s)
  {
  }

  lemma StatusFieldEquals(fields: Fields, s: WorkerRecords.Status)
    requires KnownStatus(Some(fields))
    ensures FieldEquals(fields, STATUS, Some(StatusCode(s))) <==> RecordOf(Some(fields)).value.status == Some(s)
    ensures FieldEquals(fields, STATUS, None) <==> RecordOf(Some(fields)).value.status == None
  {
    if STATUS in fields {
      CodeIsRead(fields[STATUS].text, s);
    }
  }

  lemma WrittenStatus(fields: Fields, s: WorkerRecords.Status)
    ensures RecordOf(Some(fields[STATUS := Leaf(StatusCode(s))]))
         == Some(RecordOf(Some(fields)).value.(status := Some(s)))
  {
    StatusCodesAreRead(s);
    var after := fields[STATUS := Leaf(StatusCode(s))];
    assert TextAt(after, STATUS) == Some(StatusCode(s));
    assert TextAt(after, ACTOR_ID) == TextAt(fields, ACTOR_ID) && TextAt(after, HOST_ID) == TextAt(fields, HOST_ID);
  }

  /** Every other status is written by an update with a filter, and that too is what the protocol model says. */
  lemma StatusUpdateRefines(doc: Option<Fields>, s: WorkerRecords.Status)
    requires s.SpawnerSetup? || s.PullingImage? || s.CreatingContainer? || s.UpdatingStore? || s.Ready? || s.Busy?
    requires KnownStatus(doc)
    ensures var (first, second) := PredecessorCodes(s);
            RecordOf(UpdateMatching(doc, first, second, StatusCode(s))) == WorkerRecords.UpdateStatus(RecordOf(doc), s)
  {
    if doc.Some? {
      var valid := WorkerRecords.ValidFrom(s).value;
      StatusFieldEquals(doc.value, valid.first.value);
      if valid.second.Some? {
        StatusFieldEquals(doc.value, valid.second.value);
      }
      WrittenStatus(doc.value, s);
    }
  }

  /** A requested worker is still found among its actor's workers after the spawner's whole-document write. */
  lemma RequestedWorkerStaysVisible(doc: Option<Fields>, key: string, tenant: string, id: string, actor: string,
                                    written: Fields, host: string)
    requires IsAddedDoc(written, host)
    ensures var requested := Set(doc, Key(key), Doc(RequestedDoc(tenant, id, actor))).value;
            var added := Set(Some(requested), Key(key), Doc(written)).value;
            Get(Some(added), Path(key, ACTOR_ID, [])) == Ok(Leaf(actor)) && WorkerRecords.Visible(RecordOf(Some(added)))
  {
    var requested := Set(doc, Key(key), Doc(RequestedDoc(tenant, id, actor))).value;
    var added := Set(Some(requested), Key(key), Doc(written)).value;
    WholeWriteMerges(Some(requested), key, written);
    assert added[ACTOR_ID] == Leaf(actor);
    var names := Subscripts(Path(key, ACTOR_ID, []));
    assert names[0] == ACTOR_ID && names[1..] == [];
    assert Lookup(Doc(added), names) == Lookup(added[ACTOR_ID], names[1..]);
  }

  // ---------------------------------------------------------------------------------------------
  // The store object
  // ---------------------------------------------------------------------------------------------

  class MongoStore {
    var docs: map<string, Fields>

    constructor ()
      ensures docs == map[]
    {
      docs := map[];
    }

    function Find(key: string): Option<Fields>
      reads this
    {
      if key in docs then Some(docs[key]) else None
    }

    method GetItem(a: Address) returns (r: Result<Value>)
      ensures r == Get(Find(a.key), a)
      ensures a.key !in docs ==> r == Err(NoSuchField)
      ensures a.key in docs && !a.Path? ==> r == Ok(Doc(docs[a.key]))
      ensures a.key in docs ==> forall error ::
                r == Err(error) <==> exists n: nat :: StopsAt(Doc(docs[a.key]), Subscripts(a), n, error)
    {
      if a.key !in docs {
        return Err(NoSuchField);
      }
      var current := Doc(docs[a.key]);
      var names := Subscripts(a);
      forall error
        ensures Lookup(current, names) == Err(error) <==> exists n: nat :: StopsAt(current, names, n, error)
      {
        LookupFailsIff(current, names, error);
      }
      for i := 0 to |names|
        invariant Lookup(Doc(docs[a.key]), names) == Lookup(current, names[i..])
      {
        match current {
          case Leaf(_) => return Err(NotADocument);
          case Doc(fields) =>
            if names[i] !in fields {
              return Err(NoSuchField);
            }
            assert names[i..][1..] == names[i + 1..];
            current := At(fields, names[i]);
        }
      }
      return Ok(current);
    }

    /**
     Whatever is at the address is replaced.  A path fails exactly when it has an empty name or leads through a plain
     value; what was set is found again exactly when no name has a dot; and addresses that part from it are as before.
     */
    method SetItem(a: Address, x: Value) returns (ok: bool)
      modifies this
      ensures ok <==> Set(old(Find(a.key)), a, x).Ok?
      ensures docs == if ok then old(docs)[a.key := Set(old(Find(a.key)), a, x).value] else old(docs)
      ensures !ok <==> !(a.Key? && x.Doc?)
                       && (!Accepted(Dots(a)) || exists n: nat :: Blocks(Upsert(old(Find(a.key))), Dots(a), n))
      ensures ok && !(a.Key? && x.Doc?) ==> a.key in docs && Lookup(Doc(docs[a.key]), Dots(a)) == Ok(x)
      ensures ok && a.Path? ==> (Get(Find(a.key), a) == Ok(x) <==> PlainAddress(a))
      ensures ok && a.Path? && PlainAddress(a) ==> forall b :: Apart(a, b) ==>
                Get(Find(a.key), b) == old(Get(Find(a.key), b))
    {
      ghost var before := Find(a.key);
      if !(a.Key? && x.Doc?) && Accepted(Dots(a)) {
        PutFailsIff(Upsert(before), Dots(a), x);
        if Put(Upsert(before), Dots(a), x).Ok? {
          LookupAfterPut(Upsert(before), Dots(a), x, []);
          assert Dots(a) + [] == Dots(a);
        }
      }
      var result := Set(Find(a.key), a, x);
      if result.Err? {
        return false;
      }
      docs := docs[a.key := result.value];
      if a.Path? {
        GetAfterSetIff(before, a, x);
      }
      forall b | a.Path? && PlainAddress(a) && Apart(a, b)
        ensures Get(Find(a.key), b) == Get(before, b)
      {
        SetElsewhere(before, a, x, b);
      }
      return true;
    }

    /** A deleted field is not found any more, and addresses that part from it are as before. */
    method DelItem(a: Address) returns (ok: bool)
      modifies this
      ensures ok <==> a.Path? ==> Accepted(Dots(a))
      ensures !a.Path? ==> docs == old(docs) - {a.key}
      ensures a.Path? ==> docs == if ok && a.key in old(docs) then old(docs)[a.key := Remove(old(docs)[a.key], Dots(a))]
                                  else old(docs)
      ensures ok && PlainAddress(a) ==> Get(Find(a.key), a).Err?
      ensures ok && a.Path? && PlainAddress(a) ==> forall b :: Apart(a, b) ==>
                Get(Find(a.key), b) == old(Get(Find(a.key), b))
    {
      ghost var before := Find(a.key);
      if !a.Path? {
        docs := docs - {a.key};
        return true;
      }
      if !Accepted(Dots(a)) {
        return false;
      }
      if a.key in docs {
        docs := docs[a.key := Remove(docs[a.key], Dots(a))];
        if PlainAddress(a) {
          RemovedIsGone(before.value, a);
        }
      }
      return true;
    }

    /** Popping is reading and deleting; popping a field of a missing document raises a TypeError, unlike reading it. */
    method PopField(a: Address) returns (r: Result<Value>)
      modifies this
      ensures r == Pop(old(Find(a.key)), a).0
      ensures Find(a.key) == Pop(old(Find(a.key)), a).1
      ensures !a.Path? ==> docs == old(docs) - {a.key}
      ensures !a.Path? ==> r == if a.key in old(docs) then Ok(Doc(old(docs)[a.key])) else Err(NoSuchField)
      ensures a.Path? && !Accepted(Dots(a)) ==> r == Err(BadUpdate) && docs == old(docs)
      ensures a.Path? && Accepted(Dots(a)) ==>
                docs == if a.key in old(docs) then old(docs)[a.key := Remove(old(docs)[a.key], Dots(a))] else old(docs)
      ensures forall k :: k != a.key ==> Find(k) == old(Find(k))
      ensures PlainAddress(a) && (a.Path? ==> Accepted(Subscripts(a))) ==>
                (r == if a.Path? && a.key !in old(docs) then Err(NotADocument) else old(Get(Find(a.key), a))) &&
                Get(Find(a.key), a).Err?
      ensures a.Path? && PlainAddress(a) ==> forall b :: Apart(a, b) ==> Get(Find(a.key), b) == old(Get(Find(a.key), b))
    {
      ghost var before := Find(a.key);
      if a.Path? && PlainAddress(a) {
        Text.SplitJoinIff([a.first] + a.rest, '.');
        if Accepted(Subscripts(a)) && before.Some? {
          RemovedIsGone(before.value, a);
        }
      }
      if !a.Path? {
        r := if a.key in docs then Ok(Doc(docs[a.key])) else Err(NoSuchField);
        docs := docs - {a.key};
      } else if !Accepted(Dots(a)) {
        r := Err(BadUpdate);
      } else if a.key !in docs {
        r := Err(NotADocument);
      } else {
        r := Lookup(Doc(docs[a.key]), Subscripts(a));
        docs := docs[a.key := Remove(docs[a.key], Dots(a))];
      }
    }

    /** Adds exactly when the whole document is missing, and then the value is found; else everything is as before. */
    method AddIfMissing(a: Address, x: Value) returns (r: Result<bool>)
      modifies this
      ensures var added := AddIfEmpty(old(Find(a.key)), a, x);
              (r.Ok? <==> added.Ok?) &&
              (r.Ok? ==> (r.value <==> added.value.Some?)) &&
              docs == (if added.Ok? && added.value.Some? then old(docs)[a.key := added.value.value] else old(docs))
      ensures r != Ok(true) ==> docs == old(docs)
      ensures a.KeyList? && x.Doc? ==>
                r == Ok(a.key !in old(docs)) && (r.value ==> docs == old(docs)[a.key := x.fields])
      ensures !(IsSingle(a) && x.Doc?) && Accepted(Dots(a)) ==>
                r == Ok(a.key !in old(docs)) && (r.value ==> Lookup(Doc(docs[a.key]), Dots(a)) == Ok(x))
      ensures !(IsSingle(a) && x.Doc?) && !Accepted(Dots(a)) ==> r == if IsSingle(a) then Err(BadUpdate) else Ok(false)
      ensures a.Path? && PlainAddress(a) && Accepted(Subscripts(a)) ==>
                r == Ok(a.key !in old(docs)) && (r.value ==> Get(Find(a.key), a) == Ok(x))
    {
      if a.Path? && PlainAddress(a) && Accepted(Subscripts(a)) {
        AddsOnlyMissingDocuments(Find(a.key), a, x);
      }
      if Accepted(Dots(a)) {
        PutInNewDocument(Dots(a), x);
      }
      var added := AddIfEmpty(Find(a.key), a, x);
      match added {
        case Err(e) => r := Err(e);
        case Ok(None) => r := Ok(false);
        case Ok(Some(fields)) =>
          docs := docs[a.key := fields];
          r := Ok(true);
      }
    }

    /**
     Adds the first permission of an actor, or sets a field of the existing document: either way a plain update of the
     permission map, for user names without dots.  With a dot in the name, the permission that was set is not found.
     */
    method SetPermission(user: string, actor: string, level: string) returns (ok: bool)
      modifies this
      ensures user != "" && Plain(user) ==>
                ok && docs == old(docs)[actor := Upsert(old(Find(actor)))[user := Leaf(level)]]
      ensures ok ==> (Get(Find(actor), Path(actor, user, [])) == Ok(Leaf(level)) <==> Plain(user))
      ensures !ok ==> docs == old(docs)
      ensures forall k :: k != actor ==> Find(k) == old(Find(k))
    {
      var a := Path(actor, user, []);
      var x := Leaf(level);
      Text.SplitJoinIff([user], '.');
      if Set(Find(actor), a, x).Ok? {
        GetAfterSetIff(Find(actor), a, x);
      }
      var added := AddIfMissing(a, x);
      if added == Ok(true) {
        return true;
      }
      ok := SetItem(a, x);
    }
  }
}
