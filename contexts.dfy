/** The job context: a key/value store shared by the jobs of a workflow, plus the bag of
    processed job ids. */
module Contexts {
  import opened Wrappers
  import opened Strings
  import opened JobIds

  /** A non-null stored object: its runtime type name and an opaque payload. */
  datatype Value = Boxed(typeName: string, payload: string)

  /** The type recorded for a stored null (`typeof(Nullable)`). */
  const NullTypeName: string := "System.Nullable"

  /** The type recorded for a stored value (null is `None`). */
  function RecordedType(v: Option<Value>): string {
    if v.Some? then v.value.typeName else NullTypeName
  }

  /** `GetValue<T>(key)` over the stored values, with T given by name. `Ok(None)` is
      `default(T)`. `castable(s, t)` is the runtime's cast rule: whether an object whose type
      is s converts to t (the same type, a base class, an implemented interface, `object`, a
      matching nullable); a stored object that does not convert fails the cast. */
  function Lookup(values: map<string, Option<Value>>, key: Option<string>, requested: string,
                  castable: (string, string) -> bool)
    : (r: Result<Option<Value>, Failure>)
    ensures IsNullOrWhiteSpace(key) <==> r == Err(ArgumentNull("key"))
    ensures !IsNullOrWhiteSpace(key) && (key.value !in values || values[key.value].None?) ==> r == Ok(None)
    ensures !IsNullOrWhiteSpace(key) && key.value in values && values[key.value].Some? ==>
      (r.Ok? <==> castable(values[key.value].value.typeName, requested))
    ensures r.Ok? && r.value.Some? ==> key.value in values && values[key.value] == r.value
    ensures r.Ok? && r.value.Some? ==> castable(r.value.value.typeName, requested)
    ensures r.Err? && !IsNullOrWhiteSpace(key) ==> r.error == InvalidCast
  {
    if IsNullOrWhiteSpace(key) then Err(ArgumentNull("key"))
    else if key.value !in values || values[key.value].None? then Ok(None)
    else if castable(values[key.value].value.typeName, requested) then Ok(values[key.value])
    else Err(InvalidCast)
  }

  /** A value written under a key is read back when asked for with a type it converts to,
      its own type in particular. */
  lemma SetThenGet(values: map<string, Option<Value>>, key: string, v: Value, requested: string,
                   castable: (string, string) -> bool)
    requires !IsNullOrWhiteSpace(Some(key))
    requires castable(v.typeName, requested)
    ensures Lookup(values[key := Some(v)], Some(key), requested, castable) == Ok(Some(v))
  {
  }

  /** Writing one key leaves every read of another key as it was. */
  lemma SetLeavesOthers(values: map<string, Option<Value>>, key: string, v: Option<Value>,
                        other: Option<string>, requested: string, castable: (string, string) -> bool)
    requires other != Some(key)
    ensures Lookup(values[key := v], other, requested, castable) == Lookup(values, other, requested, castable)
  {
  }

  /** A stored null reads back as the default, whatever type is asked for. */
  lemma SetNullThenGet(values: map<string, Option<Value>>, key: string, requested: string,
                       castable: (string, string) -> bool)
    requires !IsNullOrWhiteSpace(Some(key))
    ensures Lookup(values[key := None], Some(key), requested, castable) == Ok(None)
  {
  }

  /** One call a job body makes on a context: `SetValue(value, key)` or `AddToProcessed(id)`. */
  datatype ContextWrite =
    | Store(value: Option<Value>, key: Option<string>)
    | MarkProcessed(id: Option<JobId>)

  /** A call the context rejects: a blank key, or a null id. */
  predicate Malformed(w: ContextWrite) {
    match w
    case Store(_, key) => IsNullOrWhiteSpace(key)
    case MarkProcessed(id) => id.None?
  }

  /** The stores and the processed bag after a run of calls, and whether one was rejected
      (the rejected call throws, so no later call is made). */
  datatype Effect = Effect(values: map<string, Option<Value>>, processed: multiset<JobId>, failed: bool)

  function ApplyWrites(values: map<string, Option<Value>>, processed: multiset<JobId>, ws: seq<ContextWrite>): Effect
    decreases |ws|
  {
    if ws == [] then Effect(values, processed, false)
    else if Malformed(ws[0]) then Effect(values, processed, true)
    else match ws[0]
      case Store(v, key) => ApplyWrites(values[key.value := v], processed, ws[1..])
      case MarkProcessed(id) => ApplyWrites(values, processed + multiset{id.value}, ws[1..])
  }

  /** The ids a run of calls adds to the processed bag. */
  function Marked(ws: seq<ContextWrite>): multiset<JobId>
    decreases |ws|
  {
    if ws == [] then multiset{}
    else (if ws[0].MarkProcessed? && ws[0].id.Some? then multiset{ws[0].id.value} else multiset{}) + Marked(ws[1..])
  }

  /** A run of calls is rejected exactly when one of its calls is malformed. */
  lemma {:induction false} WritesFailIff(values: map<string, Option<Value>>, processed: multiset<JobId>, ws: seq<ContextWrite>)
    ensures ApplyWrites(values, processed, ws).failed <==> exists i :: 0 <= i < |ws| && Malformed(ws[i])
    decreases |ws|
  {
    if ws != [] && !Malformed(ws[0]) {
      var e := ApplyWrites(values, processed, ws);
      match ws[0] {
        case Store(v, key) => WritesFailIff(values[key.value := v], processed, ws[1..]);
        case MarkProcessed(id) => WritesFailIff(values, processed + multiset{id.value}, ws[1..]);
      }
      if e.failed {
        var j :| 0 <= j < |ws[1..]| && Malformed(ws[1..][j]);
        assert Malformed(ws[j + 1]);
      } else {
        forall i | 0 <= i < |ws|
          ensures !Malformed(ws[i])
        {
          if i > 0 {
            assert ws[i] == ws[1..][i - 1];
          }
        }
      }
    }
  }

  /** Running two lists of calls one after the other is running their concatenation, where a
      rejection in the first list means the second never runs. */
  lemma {:induction false} ApplyWritesAppend(values: map<string, Option<Value>>, processed: multiset<JobId>,
                                             a: seq<ContextWrite>, b: seq<ContextWrite>)
    ensures var e := ApplyWrites(values, processed, a);
      ApplyWrites(values, processed, a + b) == if e.failed then e else ApplyWrites(e.values, e.processed, b)
    decreases |a|
  {
    if a == [] {
      assert a + b == b;
    } else {
      assert (a + b)[0] == a[0] && (a + b)[1..] == a[1..] + b;
      if !Malformed(a[0]) {
        match a[0]
        case Store(v, key) => ApplyWritesAppend(values[key.value := v], processed, a[1..], b);
        case MarkProcessed(id) => ApplyWritesAppend(values, processed + multiset{id.value}, a[1..], b);
      }
    }
  }

  /** A key no call writes keeps its stored value (or its absence). */
  lemma {:induction false} UnwrittenKeyKept(values: map<string, Option<Value>>, processed: multiset<JobId>,
                                            ws: seq<ContextWrite>, k: string)
    requires forall i :: 0 <= i < |ws| ==> !(ws[i].Store? && ws[i].key == Some(k))
    ensures var e := ApplyWrites(values, processed, ws);
      && (k in e.values <==> k in values)
      && (k in values ==> e.values[k] == values[k])
    decreases |ws|
  {
    if ws != [] && !Malformed(ws[0]) {
      forall i | 0 <= i < |ws[1..]|
        ensures !(ws[1..][i].Store? && ws[1..][i].key == Some(k))
      {
        assert ws[1..][i] == ws[i + 1];
      }
      match ws[0]
      case Store(v, key) =>
        assert key != Some(k);
        UnwrittenKeyKept(values[key.value := v], processed, ws[1..], k);
      case MarkProcessed(id) => UnwrittenKeyKept(values, processed + multiset{id.value}, ws[1..], k);
    }
  }

  /** When no call is rejected, the last value written under a key is the one stored. */
  lemma LastStoreWins(values: map<string, Option<Value>>, processed: multiset<JobId>,
                      a: seq<ContextWrite>, v: Option<Value>, k: string, b: seq<ContextWrite>)
    requires forall i :: 0 <= i < |b| ==> !(b[i].Store? && b[i].key == Some(k))
    requires !ApplyWrites(values, processed, a + [Store(v, Some(k))] + b).failed
    ensures var e := ApplyWrites(values, processed, a + [Store(v, Some(k))] + b);
      k in e.values && e.values[k] == v
  {
    ApplyWritesAppend(values, processed, a + [Store(v, Some(k))], b);
    ApplyWritesAppend(values, processed, a, [Store(v, Some(k))]);
    var ea := ApplyWrites(values, processed, a);
    var em := ApplyWrites(values, processed, a + [Store(v, Some(k))]);
    assert !ea.failed;
    assert [Store(v, Some(k))][1..] == [];
    UnwrittenKeyKept(em.values, em.processed, b, k);
  }

  /** A run of calls never removes a processed id; when none is rejected, the bag grows by
      exactly the ids the calls add. */
  lemma {:induction false} ProcessedGrowsByMarks(values: map<string, Option<Value>>, processed: multiset<JobId>,
                                                 ws: seq<ContextWrite>)
    ensures var e := ApplyWrites(values, processed, ws);
      && processed <= e.processed
      && (!e.failed ==> e.processed == processed + Marked(ws))
    decreases |ws|
  {
    if ws != [] && !Malformed(ws[0]) {
      match ws[0]
      case Store(v, key) => ProcessedGrowsByMarks(values[key.value := v], processed, ws[1..]);
      case MarkProcessed(id) => ProcessedGrowsByMarks(values, processed + multiset{id.value}, ws[1..]);
    }
  }

  /** What a job body can observe of a context. */
  datatype ContextView = ContextView(parent: JobId, values: map<string, Option<Value>>, processed: multiset<JobId>)

  class JobContext {
    const parentJobId: JobId
    var processed: multiset<JobId>
    var values: map<string, Option<Value>>
    var types: map<string, string>

    /** Every stored key has its value's type recorded beside it. */
    ghost predicate Valid()
      reads this
    {
      values.Keys == types.Keys && forall k :: k in values ==> types[k] == RecordedType(values[k])
    }

    /** `new JobContext(parentId)` for a present parent id: empty stores. */
    constructor (parentId: JobId)
      ensures Valid()
      ensures parentJobId == parentId && processed == multiset{} && values == map[] && types == map[]
    {
      parentJobId := parentId;
      processed := multiset{};
      values := map[];
      types := map[];
    }

    /** The contents a job body sees. */
    function View(): ContextView
      reads this
    {
      ContextView(parentJobId, values, processed)
    }

    /** `ProcessedJobs`: the processed ids, with no order. */
    function ProcessedJobs(): multiset<JobId>
      reads this
    {
      processed
    }

    /** `GetValue<T>(key)`: reads only; `castable` is the runtime's cast rule, as in `Lookup`. */
    method GetValue(key: Option<string>, requested: string, castable: (string, string) -> bool)
      returns (r: Result<Option<Value>, Failure>)
      ensures r == Lookup(values, key, requested, castable)
      ensures r.Ok? && r.value.Some? ==> castable(r.value.value.typeName, requested)
    {
      if IsNullOrWhiteSpace(key) {
        return Err(ArgumentNull("key"));
      }
      r := Ok(None);
      if key.value in values {
        var stored := values[key.value];
        if stored.None? {
          return r;
        }
        if castable(stored.value.typeName, requested) {
          r := Ok(stored);
        } else {
          r := Err(InvalidCast);
        }
      }
    }

    /** `SetValue<T>(value, key)`: overwrites the value and the recorded type of that key only. */
    method SetValue(v: Option<Value>, key: Option<string>) returns (r: Result<(), Failure>)
      requires Valid()
      modifies this
      ensures Valid()
      ensures r.Err? <==> IsNullOrWhiteSpace(key)
      ensures r.Err? ==> r.error == ArgumentNull("key") && values == old(values) && types == old(types)
      ensures r.Ok? ==> values == old(values)[key.value := v] && types == old(types)[key.value := RecordedType(v)]
      ensures processed == old(processed)
    {
      if IsNullOrWhiteSpace(key) {
        return Err(ArgumentNull("key"));
      }
      values := values[key.value := v];
      types := types[key.value := RecordedType(v)];
      r := Ok(());
    }

    /** `AddToProcessed(id)`: a null id is rejected; otherwise the bag grows by exactly that id. */
    method AddToProcessed(id: Option<JobId>) returns (r: Result<(), Failure>)
      modifies this
      ensures r.Err? <==> id.None?
      ensures r.Err? ==> r.error == ArgumentNull("id") && processed == old(processed)
      ensures r.Ok? ==> processed == old(processed) + multiset{id.value}
      ensures values == old(values) && types == old(types)
    {
      if id.None? {
        return Err(ArgumentNull("id"));
      }
      processed := processed + multiset{id.value};
      r := Ok(());
    }
  }

  /** `new JobContext(parentId)`: a null parent id is rejected. */
  method NewJobContext(parentId: Option<JobId>) returns (r: Result<JobContext, Failure>)
    ensures r.Err? <==> parentId.None?
    ensures r.Err? ==> r.error == ArgumentNull("parentId")
    ensures r.Ok? ==> fresh(r.value) && r.value.Valid() && r.value.parentJobId == parentId.value
    ensures r.Ok? ==> r.value.values == map[] && r.value.processed == multiset{}
  {
    if parentId.None? {
      return Err(ArgumentNull("parentId"));
    }
    var c := new JobContext(parentId.value);
    r := Ok(c);
  }
}
