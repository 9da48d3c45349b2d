/** The part of the OPC UA address space the controller nodes and the
    aggregator rely on: variables addressed by (namespace, string id), each
    holding a Double or a String value, and the `ns=<n>;s=<id>` text form of
    such an address. */
module Points {
  import opened Wrappers

  datatype NodeId = NodeId(namespace: nat, identifier: string)

  /** The two value variants the nodes write. */
  datatype Variant = Double(number: real) | String(text: string)

  datatype Kind = DoubleKind | StringKind

  function KindOf(v: Variant): Kind
  {
    match v
    case Double(_) => DoubleKind
    case String(_) => StringKind
  }

  type PointStore = map<NodeId, Variant>

  /** `set_variable_value`: overwrites an existing variable; for an id the
      address space does not hold it changes nothing (the callers ignore the
      returned flag). */
  function SetValue(store: PointStore, id: NodeId, v: Variant): (r: PointStore)
    ensures r.Keys == store.Keys
    ensures id in store ==> r[id] == v
    ensures forall k :: k in store && k != id ==> r[k] == store[k]
  {
    if id in store then store[id := v] else store
  }

  /** One pass of writes: `SetValue` for each id of `writes`. Lemma
      `SequentialWritesAreWriteAll` shows that any order of those calls
      gives this store. */
  function WriteAll(store: PointStore, writes: map<NodeId, Variant>): (r: PointStore)
    ensures r.Keys == store.Keys
    ensures forall k :: k in store && k in writes ==> r[k] == writes[k]
    ensures forall k :: k in store && k !in writes ==> r[k] == store[k]
  {
    map k | k in store :: if k in writes then writes[k] else store[k]
  }

  /** The ids of `ids` are pairwise different. */
  predicate Distinct(ids: seq<NodeId>)
  {
    forall i, j :: 0 <= i < j < |ids| ==> ids[i] != ids[j]
  }

  /** `SetValue` for each id of `ids` in turn, writing its value from `writes`:
      the update loop's sequence of `set_variable_value` calls. */
  function SetAll(store: PointStore, ids: seq<NodeId>, writes: map<NodeId, Variant>): PointStore
    requires forall i :: 0 <= i < |ids| ==> ids[i] in writes
    decreases |ids|
  {
    if |ids| == 0 then store
    else SetAll(SetValue(store, ids[0], writes[ids[0]]), ids[1..], writes)
  }

  /** A sequence of writes replaces exactly the listed variables that exist
      and keeps every other variable. An id listed twice is written twice
      with the same value, so repeats change nothing. */
  lemma {:induction false} SetAllReplacesListed(store: PointStore, ids: seq<NodeId>, writes: map<NodeId, Variant>)
    requires forall i :: 0 <= i < |ids| ==> ids[i] in writes
    ensures SetAll(store, ids, writes) == map k | k in store :: if k in ids then writes[k] else store[k]
    decreases |ids|
  {
    if |ids| > 0 {
      var rest := ids[1..];
      SetAllReplacesListed(SetValue(store, ids[0], writes[ids[0]]), rest, writes);
      forall k | k in ids ensures k == ids[0] || k in rest {
        var i :| 0 <= i < |ids| && ids[i] == k;
        if i > 0 { assert rest[i - 1] == k; }
      }
    }
  }

  /** Writing every id of `writes`, in any order, is `WriteAll`: the order
      of the update loop's calls does not matter. */
  lemma SequentialWritesAreWriteAll(store: PointStore, ids: seq<NodeId>, writes: map<NodeId, Variant>)
    requires forall i :: 0 <= i < |ids| ==> ids[i] in writes
    requires forall k :: k in writes ==> k in ids
    ensures SetAll(store, ids, writes) == WriteAll(store, writes)
  {
    SetAllReplacesListed(store, ids, writes);
  }

  /** Writing values of the kinds a store already holds keeps its kinds. */
  lemma WriteAllKeepsKinds(store: PointStore, writes: map<NodeId, Variant>, shape: PointStore)
    requires forall k :: k in writes && k in shape ==> KindOf(writes[k]) == KindOf(shape[k])
    ensures SameKinds(store, shape) ==> SameKinds(WriteAll(store, writes), shape)
  {
  }

  /** Two stores hold the same ids, each with a value of the same kind. */
  predicate SameKinds(a: PointStore, b: PointStore)
  {
    && a.Keys == b.Keys
    && forall k :: k in a ==> KindOf(a[k]) == KindOf(b[k])
  }

  /** Every store has its own kinds. */
  lemma SameKindsReflexive(a: PointStore)
    ensures SameKinds(a, a)
  {
  }

  /** Largest namespace index (a `u16` in OPC UA). */
  const MaxNamespace: nat := 65535

  // ------------------------------------------------------- decimal digits

  predicate IsDigit(c: char)
  {
    '0' <= c <= '9'
  }

  /** Length of the run of digits at the front of `s`. */
  function DigitRun(s: string): (k: nat)
    ensures k <= |s|
    ensures forall i :: 0 <= i < k ==> IsDigit(s[i])
    ensures k < |s| ==> !IsDigit(s[k])
  {
    if |s| == 0 || !IsDigit(s[0]) then 0 else 1 + DigitRun(s[1..])
  }

  /** The value of a digit string, most significant digit first. */
  function DigitsValue(s: string): nat
    requires forall i :: 0 <= i < |s| ==> IsDigit(s[i])
    decreases |s|
  {
    if |s| == 0 then 0
    else
      assert IsDigit(s[|s| - 1]);
      DigitsValue(s[..|s| - 1]) * 10 + ((s[|s| - 1] as int) - ('0' as int))
  }

  /** Decimal rendering of `n`, without leading zeros. */
  function Digits(n: nat): (s: string)
    ensures |s| > 0
    ensures forall i :: 0 <= i < |s| ==> IsDigit(s[i])
    decreases n
  {
    if n < 10 then [('0' as int + n) as char]
    else Digits(n / 10) + [('0' as int + n % 10) as char]
  }

  lemma {:induction false} DigitsRoundTrip(n: nat)
    ensures DigitsValue(Digits(n)) == n
    decreases n
  {
    if n >= 10 {
      var s := Digits(n);
      DigitsRoundTrip(n / 10);
      assert s[..|s| - 1] == Digits(n / 10);
    }
  }

  lemma {:induction false} DigitRunOfDigits(ds: string, rest: string)
    requires forall i :: 0 <= i < |ds| ==> IsDigit(ds[i])
    requires |rest| > 0 && !IsDigit(rest[0])
    ensures DigitRun(ds + rest) == |ds|
    decreases |ds|
  {
    if |ds| > 0 {
      assert (ds + rest)[1..] == ds[1..] + rest;
      DigitRunOfDigits(ds[1..], rest);
    }
  }

  // ------------------------------------------------------ NodeId strings

  const NamespacePrefix: string := "ns="
  const StringIdPrefix: string := ";s="

  /** The `ns=<n>;s=<id>` form of a string node id. */
  function RenderNodeId(id: NodeId): string
  {
    NamespacePrefix + Digits(id.namespace) + StringIdPrefix + id.identifier
  }

  /** A node id whose text form parses back: its namespace fits in `u16` and
      its string id is not empty. */
  predicate Renderable(id: NodeId)
  {
    id.namespace <= MaxNamespace && |id.identifier| > 0
  }

  /** `NodeId::from_str` for the `ns=<n>;s=<id>` form: a non-empty run of
      digits naming a namespace within `u16` range, then the string id, which
      is everything after `;s=` and must not be empty. Any other text is
      rejected. */
  function ParseNodeId(text: string): (r: Option<NodeId>)
    ensures r.Some? ==> Renderable(r.value)
  {
    if |text| < |NamespacePrefix| || text[..|NamespacePrefix|] != NamespacePrefix then None
    else
      var rest := text[|NamespacePrefix|..];
      var k := DigitRun(rest);
      if k == 0 || |rest| < k + |StringIdPrefix| || rest[k..k + |StringIdPrefix|] != StringIdPrefix then None
      else
        var ns := DigitsValue(rest[..k]);
        if ns > MaxNamespace || |rest| == k + |StringIdPrefix| then None
        else Some(NodeId(ns, rest[k + |StringIdPrefix|..]))
  }

  /** Parsing the rendered form of a node id gives the node id back. */
  lemma ParseRenderRoundTrip(id: NodeId)
    requires Renderable(id)
    ensures ParseNodeId(RenderNodeId(id)) == Some(id)
  {
    var text := RenderNodeId(id);
    var ds := Digits(id.namespace);
    var rest := text[|NamespacePrefix|..];
    assert text[..|NamespacePrefix|] == NamespacePrefix;
    assert rest == ds + (StringIdPrefix + id.identifier);
    DigitRunOfDigits(ds, StringIdPrefix + id.identifier);
    assert rest[..|ds|] == ds;
    assert rest[|ds|..|ds| + |StringIdPrefix|] == StringIdPrefix;
    assert rest[|ds| + |StringIdPrefix|..] == id.identifier;
    DigitsRoundTrip(id.namespace);
  }

  /** The paths the aggregator reads all have the form `ns=2;s=<id>`. */
  function Ns2Path(identifier: string): (path: string)
    ensures path == RenderNodeId(NodeId(2, identifier))
  {
    "ns=2;s=" + identifier
  }

  lemma ParseNs2Path(identifier: string)
    requires |identifier| > 0
    ensures ParseNodeId(Ns2Path(identifier)) == Some(NodeId(2, identifier))
  {
    ParseRenderRoundTrip(NodeId(2, identifier));
  }
}
