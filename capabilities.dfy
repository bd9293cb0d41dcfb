/**
  The capability record `GL_CONFIGURATIONS` and its one writer `add(subject,
  key, value)`. A JavaScript object keeps its keys in insertion order, except
  that array-index keys such as "0" come first in ascending order; no key
  written here is an array index. Re-assigning a property keeps its place, so
  the record is an association list of subjects, each holding an association
  list of keys.
 */
module Capabilities {
  import opened JsValues

  /** An ordered mapping from name to `V`, in insertion order. */
  type Assoc<V> = seq<(string, V)>

  type Table = Assoc<Value>

  /** subject -> key -> value. */
  type Record = Assoc<Table>

  /** One call `add(subject, key, value)`. */
  datatype Entry = Entry(subject: string, key: string, value: Value)

  function Names<V>(a: Assoc<V>): (r: seq<string>)
    ensures |r| == |a|
    ensures forall i :: 0 <= i < |a| ==> r[i] == a[i].0
  {
    if a == [] then [] else [a[0].0] + Names(a[1..])
  }

  predicate Distinct(s: seq<string>) {
    forall i, j :: 0 <= i < j < |s| ==> s[i] != s[j]
  }

  /** `object[name]`, with `None` for `undefined`. */
  function Find<V>(a: Assoc<V>, name: string): (r: Option<V>)
    ensures r.Some? <==> name in Names(a)
  {
    if a == [] then None else if a[0].0 == name then Some(a[0].1) else Find(a[1..], name)
  }

  /** `object[name] = v`: overwrites in place when `name` is present, appends otherwise. */
  function Put<V>(a: Assoc<V>, name: string, v: V): (r: Assoc<V>)
    ensures Names(r) == if name in Names(a) then Names(a) else Names(a) + [name]
  {
    if a == [] then [(name, v)]
    else if a[0].0 == name then [(name, v)] + a[1..]
    else [a[0]] + Put(a[1..], name, v)
  }

  lemma {:induction false} FindPut<V>(a: Assoc<V>, name: string, v: V, other: string)
    ensures Find(Put(a, name, v), other) == if other == name then Some(v) else Find(a, other)
  {
    if a != [] && a[0].0 != name {
      FindPut(a[1..], name, v, other);
    }
  }

  function Lookup(r: Record, subject: string, key: string): Option<Value> {
    match Find(r, subject)
    case None => None
    case Some(t) => Find(t, key)
  }

  /** The keys of `subject`, in record order; empty when the subject is absent. */
  function KeysOf(r: Record, subject: string): seq<string> {
    match Find(r, subject)
    case None => []
    case Some(t) => Names(t)
  }

  /**
    The record after `add(subject, key, value)`: first the subject is created
    empty when it is undefined, then the key is assigned in it.
   */
  function Insert(r: Record, subject: string, key: string, value: Value): Record {
    var created := if Find(r, subject).None? then r + [(subject, [])] else r;
    var table := match Find(created, subject) case Some(t) => t case None => [];
    Put(created, subject, Put(table, key, value))
  }

  lemma FindAppendFresh<V>(a: Assoc<V>, name: string, v: V)
    requires name !in Names(a)
    ensures Find(a + [(name, v)], name) == Some(v)
    ensures Put(a + [(name, v)], name, v) == Put(a, name, v)
  {
    FindAppendFreshAt(a, name, v, v);
  }

  lemma {:induction false} FindAppendFreshAt<V>(a: Assoc<V>, name: string, v: V, w: V)
    requires name !in Names(a)
    ensures Find(a + [(name, v)], name) == Some(v)
    ensures Put(a + [(name, v)], name, w) == Put(a, name, w)
  {
    if a != [] {
      assert (a + [(name, v)])[1..] == a[1..] + [(name, v)];
      FindAppendFreshAt(a[1..], name, v, w);
    }
  }

  /** `add` makes `(subject, key)` read `value` and leaves every other pair as it was. */
  lemma InsertLookup(r: Record, subject: string, key: string, value: Value, s: string, k: string)
    ensures Lookup(Insert(r, subject, key, value), s, k)
         == if s == subject && k == key then Some(value) else Lookup(r, s, k)
  {
    var created := if Find(r, subject).None? then r + [(subject, [])] else r;
    if Find(r, subject).None? {
      FindAppendFreshAt(r, subject, [], []);
    }
    var table := match Find(created, subject) case Some(t) => t case None => [];
    FindPut(created, subject, Put(table, key, value), s);
    FindPut(table, key, value, k);
    if s != subject && Find(r, subject).None? {
      FindAppendOther(r, subject, [], s);
    }
  }

  lemma {:induction false} FindAppendOther<V>(a: Assoc<V>, name: string, v: V, other: string)
    requires other != name
    ensures Find(a + [(name, v)], other) == Find(a, other)
  {
    if a == [] {
    } else {
      assert (a + [(name, v)])[1..] == a[1..] + [(name, v)];
      FindAppendOther(a[1..], name, v, other);
    }
  }

  /**
    `add` keeps the order of subjects and of keys: a new subject goes last, a
    new key goes last in its subject, and overwriting keeps every position.
   */
  lemma InsertOrder(r: Record, subject: string, key: string, value: Value, s: string)
    ensures Names(Insert(r, subject, key, value))
         == if subject in Names(r) then Names(r) else Names(r) + [subject]
    ensures KeysOf(Insert(r, subject, key, value), s)
         == if s != subject then KeysOf(r, s)
            else if key in KeysOf(r, s) then KeysOf(r, s)
            else KeysOf(r, s) + [key]
  {
    var created := if Find(r, subject).None? then r + [(subject, [])] else r;
    if Find(r, subject).None? {
      FindAppendFreshAt(r, subject, [], []);
      assert Names(created) == Names(r) + [subject];
      if s != subject {
        FindAppendOther(r, subject, [], s);
      }
    }
    var table := match Find(created, subject) case Some(t) => t case None => [];
    FindPut(created, subject, Put(table, key, value), s);
  }

  /** Every subject and every key occurs once. */
  ghost predicate WellFormed(r: Record) {
    Distinct(Names(r)) && forall i :: 0 <= i < |r| ==> Distinct(Names(r[i].1))
  }

  lemma {:induction false} PutElements<V>(a: Assoc<V>, name: string, v: V, i: nat)
    requires i < |Put(a, name, v)|
    ensures Put(a, name, v)[i] == (name, v) || (i < |a| && Put(a, name, v)[i] == a[i])
  {
    if a != [] && a[0].0 != name && i > 0 {
      PutElements(a[1..], name, v, i - 1);
    }
  }

  lemma InsertWellFormed(r: Record, subject: string, key: string, value: Value)
    requires WellFormed(r)
    ensures WellFormed(Insert(r, subject, key, value))
  {
    var created := if Find(r, subject).None? then r + [(subject, [])] else r;
    CreatedWellFormed(r, subject);
    var table := match Find(created, subject) case Some(t) => t case None => [];
    FindInTable(created, subject);
    var updated := Put(table, key, value);
    PutDistinct(table, key, value);
    var result := Put(created, subject, updated);
    PutDistinct(created, subject, updated);
    forall i | 0 <= i < |result| ensures Distinct(Names(result[i].1)) {
      PutElements(created, subject, updated, i);
    }
  }

  lemma PutDistinct<V>(a: Assoc<V>, name: string, v: V)
    requires Distinct(Names(a))
    ensures Distinct(Names(Put(a, name, v)))
  {
    if name !in Names(a) {
      var n := Names(a) + [name];
      forall i, j | 0 <= i < j < |n| ensures n[i] != n[j] {
        if j < |Names(a)| { assert n[i] == Names(a)[i] && n[j] == Names(a)[j]; }
      }
    }
  }

  lemma CreatedWellFormed(r: Record, subject: string)
    requires WellFormed(r)
    ensures WellFormed(if Find(r, subject).None? then r + [(subject, [])] else r)
  {
    if Find(r, subject).None? {
      var created := r + [(subject, [])];
      assert Names(created) == Names(r) + [subject];
      forall i | 0 <= i < |created| ensures Distinct(Names(created[i].1)) {
        if i < |r| { assert created[i] == r[i]; }
      }
    }
  }

  lemma {:induction false} FindInTable<V>(a: Assoc<Assoc<V>>, name: string)
    requires forall i :: 0 <= i < |a| ==> Distinct(Names(a[i].1))
    ensures Find(a, name).Some? ==> Distinct(Names(Find(a, name).value))
  {
    if a != [] && a[0].0 != name {
      FindInTable(a[1..], name);
    }
  }

  // ------------------------------------------------------------ runs of add

  /** The record after the `add` calls of `entries`, in order. */
  function ApplyAll(r: Record, entries: seq<Entry>): Record
    decreases |entries|
  {
    if entries == [] then r
    else
      var e := entries[|entries| - 1];
      Insert(ApplyAll(r, entries[..|entries| - 1]), e.subject, e.key, e.value)
  }

  lemma {:induction false} ApplyAllAppend(r: Record, a: seq<Entry>, b: seq<Entry>)
    ensures ApplyAll(r, a + b) == ApplyAll(ApplyAll(r, a), b)
    decreases |b|
  {
    if b == [] {
      assert a + b == a;
    } else {
      assert (a + b)[..|a + b| - 1] == a + b[..|b| - 1];
      ApplyAllAppend(r, a, b[..|b| - 1]);
    }
  }

  /** One more `add` call after a run. */
  lemma ApplyAllStep(r: Record, entries: seq<Entry>, e: Entry)
    ensures ApplyAll(r, entries + [e]) == Insert(ApplyAll(r, entries), e.subject, e.key, e.value)
  {
    assert (entries + [e])[..|entries|] == entries;
  }

  /** The value of the last call in `entries` that writes `(subject, key)`. */
  function LastWrite(entries: seq<Entry>, subject: string, key: string): Option<Value>
    decreases |entries|
  {
    if entries == [] then None
    else
      var e := entries[|entries| - 1];
      if e.subject == subject && e.key == key then Some(e.value)
      else LastWrite(entries[..|entries| - 1], subject, key)
  }

  /** After a run of `add` calls, a pair reads its last write, or what it read before when it was never written. */
  lemma {:induction false} ApplyAllLookup(r: Record, entries: seq<Entry>, subject: string, key: string)
    ensures Lookup(ApplyAll(r, entries), subject, key)
         == match LastWrite(entries, subject, key)
            case Some(v) => Some(v)
            case None => Lookup(r, subject, key)
    decreases |entries|
  {
    if entries != [] {
      var e := entries[|entries| - 1];
      InsertLookup(ApplyAll(r, entries[..|entries| - 1]), e.subject, e.key, e.value, subject, key);
      ApplyAllLookup(r, entries[..|entries| - 1], subject, key);
    }
  }

  /** The names of `names` without repetitions, each at its first occurrence. */
  function Dedup(names: seq<string>): (r: seq<string>)
    decreases |names|
  {
    if names == [] then []
    else
      var rest := Dedup(names[..|names| - 1]);
      if names[|names| - 1] in rest then rest else rest + [names[|names| - 1]]
  }

  function KeysWritten(entries: seq<Entry>, subject: string): (r: seq<string>)
    ensures |r| <= |entries|
    decreases |entries|
  {
    if entries == [] then []
    else
      var e := entries[|entries| - 1];
      KeysWritten(entries[..|entries| - 1], subject) + (if e.subject == subject then [e.key] else [])
  }

  lemma {:induction false} KeysWrittenAppend(a: seq<Entry>, b: seq<Entry>, subject: string)
    ensures KeysWritten(a + b, subject) == KeysWritten(a, subject) + KeysWritten(b, subject)
    decreases |b|
  {
    if b == [] {
      assert a + b == a;
    } else {
      assert (a + b)[..|a + b| - 1] == a + b[..|b| - 1];
      KeysWrittenAppend(a, b[..|b| - 1], subject);
    }
  }

  /** The last write of a pair in a concatenation is in the second part when it writes the pair at all. */
  lemma {:induction false} LastWriteAppend(a: seq<Entry>, b: seq<Entry>, subject: string, key: string)
    ensures LastWrite(a + b, subject, key)
         == if LastWrite(b, subject, key).Some? then LastWrite(b, subject, key) else LastWrite(a, subject, key)
    decreases |b|
  {
    if b == [] {
      assert a + b == a;
    } else {
      assert (a + b)[..|a + b| - 1] == a + b[..|b| - 1];
      LastWriteAppend(a, b[..|b| - 1], subject, key);
    }
  }

  /** A pair has a last write exactly when its key is among the keys written for its subject. */
  lemma {:induction false} LastWriteKeys(entries: seq<Entry>, subject: string, key: string)
    ensures LastWrite(entries, subject, key).Some? <==> key in KeysWritten(entries, subject)
    decreases |entries|
  {
    if entries != [] {
      LastWriteKeys(entries[..|entries| - 1], subject, key);
    }
  }

  lemma {:induction false} DedupMembers(names: seq<string>, x: string)
    ensures x in Dedup(names) <==> x in names
    decreases |names|
  {
    if names != [] {
      DedupMembers(names[..|names| - 1], x);
      assert names == names[..|names| - 1] + [names[|names| - 1]];
    }
  }

  /** Names without repetitions that `a` does not hold survive the deduplication of `a + b` unchanged. */
  lemma {:induction false} DedupAppendDistinct(a: seq<string>, b: seq<string>)
    requires Distinct(b)
    requires forall k :: k in b ==> k !in a
    ensures Dedup(a + b) == Dedup(a) + b
    decreases |b|
  {
    if b != [] {
      var init := b[..|b| - 1];
      var last := b[|b| - 1];
      assert Distinct(init);
      DedupAppendDistinct(a, init);
      assert (a + b)[..|a + b| - 1] == a + init;
      DedupMembers(a + init, last);
      assert last in b && last !in init;
      assert last !in Dedup(a + init);
      assert Dedup(a + b) == Dedup(a + init) + [last];
      assert b == init + [last];
    } else {
      assert a + b == a;
    }
  }

  /** An entry whose key no later entry repeats is the last write of its pair. */
  lemma {:induction false} LastWriteUnrepeated(entries: seq<Entry>, i: nat)
    requires i < |entries|
    requires forall j :: i < j < |entries| ==> entries[j].key != entries[i].key
    ensures LastWrite(entries, entries[i].subject, entries[i].key) == Some(entries[i].value)
    decreases |entries|
  {
    if i < |entries| - 1 {
      var init := entries[..|entries| - 1];
      assert init[i] == entries[i];
      forall j | i < j < |init|
        ensures init[j].key != init[i].key
      {
        assert init[j] == entries[j];
      }
      LastWriteUnrepeated(init, i);
    }
  }

  /**
    Starting from an empty record, the keys of a subject stand in the order
    in which they were first written.
   */
  lemma {:induction false} ApplyAllKeys(entries: seq<Entry>, subject: string)
    ensures KeysOf(ApplyAll([], entries), subject) == Dedup(KeysWritten(entries, subject))
    decreases |entries|
  {
    if entries != [] {
      var init := entries[..|entries| - 1];
      var e := entries[|entries| - 1];
      var before := ApplyAll([], init);
      assert ApplyAll([], entries) == Insert(before, e.subject, e.key, e.value);
      ApplyAllKeys(init, subject);
      assert KeysOf(before, subject) == Dedup(KeysWritten(init, subject));
      InsertOrder(before, e.subject, e.key, e.value, subject);
      if e.subject == subject {
        var w := KeysWritten(init, subject) + [e.key];
        assert KeysWritten(entries, subject) == w;
        assert w[..|w| - 1] == KeysWritten(init, subject);
        assert Dedup(w) == if e.key in Dedup(KeysWritten(init, subject)) then Dedup(KeysWritten(init, subject))
                           else Dedup(KeysWritten(init, subject)) + [e.key];
      } else {
        assert KeysWritten(entries, subject) == KeysWritten(init, subject);
      }
    }
  }

  // ------------------------------------------------------------ the object

  /** The module global `GL_CONFIGURATIONS`. */
  class Configurations {
    var subjects: Record

    /** `const GL_CONFIGURATIONS = {}`. */
    constructor ()
      ensures subjects == []
    {
      subjects := [];
    }

    function Get(subject: string, key: string): Option<Value>
      reads this
    {
      Lookup(subjects, subject, key)
    }

    /** `add(subject, key, value)`. */
    method Add(subject: string, key: string, value: Value)
      modifies this
      ensures subjects == Insert(old(subjects), subject, key, value)
      ensures Get(subject, key) == Some(value)
      ensures forall s, k :: (s != subject || k != key) ==> Get(s, k) == old(Get(s, k))
      ensures WellFormed(old(subjects)) ==> WellFormed(subjects)
    {
      ghost var before := subjects;
      if Find(subjects, subject).None? {
        subjects := subjects + [(subject, [])];
      }
      var table := match Find(subjects, subject) case Some(t) => t case None => [];
      subjects := Put(subjects, subject, Put(table, key, value));
      forall s, k ensures Lookup(subjects, s, k) == if s == subject && k == key then Some(value) else Lookup(before, s, k) {
        InsertLookup(before, subject, key, value, s, k);
      }
      if WellFormed(before) {
        InsertWellFormed(before, subject, key, value);
      }
    }
  }

  /**
    `add(e.subject, e.key, e.value)` as the next call of a run of adds that
    started from the record `start` and has made the calls of `done`.
   */
  method AddNext(config: Configurations, e: Entry, ghost start: Record, ghost done: seq<Entry>)
    modifies config
    requires config.subjects == ApplyAll(start, done)
    ensures config.subjects == ApplyAll(start, done + [e])
  {
    config.Add(e.subject, e.key, e.value);
    ApplyAllStep(start, done, e);
  }
}
