/** The gift map: which row a TikTok gift feeds, looked up by the gift's
    numeric id or by its name. Reading and parsing the mapping file is
    outside the model; `Load` receives the parsed record as its entries in
    enumeration order. */
module GiftMap {
  import opened Wrappers
  import opened Js

  /** A parsed mapping record: (key, row id) pairs as `Object.entries`
      enumerates them. */
  type Entries = seq<(string, string)>

  /** Entry `i` writes key `k`: `k` is its key verbatim or lower-cased. */
  predicate Writes(e: Entries, i: nat, k: string)
    requires i < |e|
  {
    e[i].0 == k || Lower(e[i].0) == k
  }

  /** The map `load` builds: for each entry in order, its key and then its
      lower-cased key are set to its value, so later writes win. */
  function LoadedMap(e: Entries): (r: map<string, string>)
    ensures forall k :: k in r ==> exists i :: 0 <= i < |e| && e[i].1 == r[k]
    decreases |e|
  {
    if e == [] then map[]
    else
      var last := e[|e| - 1];
      LoadedMap(e[..|e| - 1])[last.0 := last.1][Lower(last.0) := last.1]
  }

  /** The loaded map holds exactly the source keys and their lower-case
      aliases: nothing else, in particular nothing from an earlier load. */
  lemma {:induction false} LoadedKeys(e: Entries, k: string)
    ensures k in LoadedMap(e) <==> exists i :: 0 <= i < |e| && Writes(e, i, k)
    decreases |e|
  {
    if e != [] {
      var n := |e| - 1;
      var front := e[..n];
      LoadedKeys(front, k);
      assert LoadedMap(e) == LoadedMap(front)[e[n].0 := e[n].1][Lower(e[n].0) := e[n].1];
      assert k in LoadedMap(e) <==> k in LoadedMap(front) || Writes(e, n, k);
      if k in LoadedMap(front) {
        var i :| 0 <= i < |front| && Writes(front, i, k);
        assert Writes(e, i, k);
      }
      if exists i :: 0 <= i < |e| && Writes(e, i, k) {
        var i :| 0 <= i < |e| && Writes(e, i, k);
        if i < n {
          assert front[i] == e[i];
          assert Writes(front, i, k);
        }
      }
    }
  }

  /** Later entries overwrite earlier ones: a key holds the value of the
      last entry that writes it. */
  lemma {:induction false} LastWriterWins(e: Entries, i: nat, k: string)
    requires i < |e| && Writes(e, i, k)
    requires forall j :: i < j < |e| ==> !Writes(e, j, k)
    ensures k in LoadedMap(e) && LoadedMap(e)[k] == e[i].1
    decreases |e|
  {
    var n := |e| - 1;
    if i < n {
      var front := e[..n];
      assert LoadedMap(e) == LoadedMap(front)[e[n].0 := e[n].1][Lower(e[n].0) := e[n].1];
      assert !Writes(e, n, k);
      assert front[i] == e[i];
      forall j | i < j < |front| ensures !Writes(front, j, k) {
        assert !Writes(e, j, k);
      }
      LastWriterWins(front, i, k);
    }
  }

  /** An entry whose key and alias no other entry writes is reachable both
      verbatim and lower-cased. */
  lemma VerbatimAndLowerCase(e: Entries, i: nat)
    requires i < |e|
    requires forall j :: 0 <= j < |e| && j != i ==> !Writes(e, j, e[i].0) && !Writes(e, j, Lower(e[i].0))
    ensures e[i].0 in LoadedMap(e) && LoadedMap(e)[e[i].0] == e[i].1
    ensures Lower(e[i].0) in LoadedMap(e) && LoadedMap(e)[Lower(e[i].0)] == e[i].1
  {
    LastWriterWins(e, i, e[i].0);
    LastWriterWins(e, i, Lower(e[i].0));
  }

  /** `map.get(k)`. */
  function Get(m: map<string, string>, k: string): Option<string> {
    if k in m then Some(m[k]) else None
  }

  /** A looked-up row id is used only when it is truthy: present and not
      the empty string. */
  predicate Hit(v: Option<string>) {
    v.Some? && v.value != ""
  }

  /** `a ?? b`: the second lookup is consulted only when the first finds
      nothing at all. */
  function Nullish(a: Option<string>, b: Option<string>): Option<string> {
    if a.Some? then a else b
  }

  /** The lookup by id: `String(giftId)`, when an id was given. */
  function ById(m: map<string, string>, giftId: Option<Number>): Option<string> {
    if giftId.Some? then Get(m, NumberToString(giftId.value)) else None
  }

  /** The lookup by name: the name as given, else its lower-case form, when
      a non-empty name was given. */
  function ByName(m: map<string, string>, giftName: Option<string>): Option<string> {
    if giftName.Some? && giftName.value != "" then
      Nullish(Get(m, giftName.value), Get(m, Lower(giftName.value)))
    else None
  }

  /** `resolveRowId`: the id decides when it maps to a row; the name is
      tried only otherwise; an unmapped gift resolves to nothing. */
  function Resolve(m: map<string, string>, giftId: Option<Number>, giftName: Option<string>): (r: Option<string>)
    ensures r.Some? ==> r.value != "" && r.value in m.Values
    ensures Hit(ById(m, giftId)) ==> r == ById(m, giftId)
    ensures !Hit(ById(m, giftId)) ==> (r.Some? <==> Hit(ByName(m, giftName)))
    ensures !Hit(ById(m, giftId)) && r.Some? ==> r == ByName(m, giftName)
  {
    var byId := ById(m, giftId);
    if Hit(byId) then byId
    else
      var byName := ByName(m, giftName);
      if Hit(byName) then byName else None
  }

  /** Names resolve whatever their letter case: any spelling of a mapped
      name that lower-cases like the mapping key finds its row, as long as
      no other entry claims that key or its alias. */
  lemma NameResolvesInAnyCase(e: Entries, i: nat, name: string)
    requires i < |e| && e[i].1 != ""
    requires forall j :: 0 <= j < |e| && j != i ==> !Writes(e, j, e[i].0) && !Writes(e, j, Lower(e[i].0))
    requires name != "" && Lower(name) == Lower(e[i].0)
    ensures Resolve(LoadedMap(e), None, Some(name)) == Some(e[i].1)
  {
    var m := LoadedMap(e);
    var key := e[i].0;
    VerbatimAndLowerCase(e, i);
    if name in m {
      LoadedKeys(e, name);
      var j :| 0 <= j < |e| && Writes(e, j, name);
      LowerIdempotent(e[j].0);
      assert Writes(e, j, Lower(key)) || Writes(e, j, key) by {
        if e[j].0 == name {
          assert Lower(e[j].0) == Lower(key);
        } else {
          assert name == Lower(e[j].0);
          assert name == Lower(name);
        }
      }
      assert j == i;
      if name == key {
      } else {
        assert name == Lower(key);
      }
    } else {
      assert Get(m, Lower(name)) == Some(e[i].1);
    }
  }

  /** The `??` keeps an exact match that holds the empty string: the
      lower-case alias is not consulted and the gift stays unmapped. */
  lemma EmptyExactMatchHidesAlias(m: map<string, string>, name: string)
    requires name in m && m[name] == ""
    ensures Resolve(m, None, Some(name)) == None
  {
  }

  /** The store object holding the current map. */
  class GiftMapStore {
    var table: map<string, string>

    constructor ()
      ensures table == map[]
    {
      table := map[];
    }

    /** `load`: build a fresh map from the parsed record and replace the
        old one with it. */
    method Load(e: Entries)
      modifies this
      ensures table == LoadedMap(e)
    {
      var next: map<string, string> := map[];
      var i := 0;
      while i < |e|
        invariant 0 <= i <= |e|
        invariant next == LoadedMap(e[..i])
      {
        var (key, value) := e[i];
        assert e[..i + 1][..i] == e[..i];
        next := next[key := value];
        next := next[Lower(key) := value];
        i := i + 1;
      }
      assert e[..i] == e;
      table := next;
    }

    /** `resolveRowId` on the current map. */
    function ResolveRowId(giftId: Option<Number>, giftName: Option<string>): (r: Option<string>)
      reads this
      ensures r.Some? ==> r.value != "" && r.value in table.Values
    {
      Resolve(table, giftId, giftName)
    }
  }
}
