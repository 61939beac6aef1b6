/**
 Command queue properties: zero-terminated arrays of key and value pairs (section 5.1 of the OpenCL API
 specification), their conversion to a bitfield, and their rewriting for metrics collection.
 */
module QueueProperties {

  const CL_QUEUE_PROPERTIES: bv64 := 0x1093
  const CL_QUEUE_OUT_OF_ORDER_EXEC_MODE_ENABLE: bv64 := 1
  const CL_QUEUE_PROFILING_ENABLE: bv64 := 2
  const CL_QUEUE_MDAPI_PROPERTIES_INTEL: bv64 := 0x425E
  const CL_QUEUE_MDAPI_CONFIGURATION_INTEL: bv64 := 0x425F
  const CL_QUEUE_MDAPI_ENABLE_INTEL: bv64 := 1

  datatype Pair = Pair(key: bv64, value: bv64)

  // ---- Arrays as lists of pairs ----

  predicate KeysNonZero(ps: seq<Pair>) { forall i :: 0 <= i < |ps| ==> ps[i].key != 0 }

  /** The zero-terminated array of a list of pairs. */
  function Encode(ps: seq<Pair>): (s: seq<bv64>)
    ensures |s| == 2 * |ps| + 1 && s[2 * |ps|] == 0
  {
    seq(2 * |ps| + 1, i requires 0 <= i < 2 * |ps| + 1 =>
      if i == 2 * |ps| then 0 else if i % 2 == 0 then ps[i / 2].key else ps[i / 2].value)
  }

  /** Reads pairs up to the first zero key. */
  function Decode(s: seq<bv64>): seq<Pair> {
    if |s| < 2 || s[0] == 0 then [] else [Pair(s[0], s[1])] + Decode(s[2..])
  }

  lemma EncodeTail(ps: seq<Pair>)
    requires ps != []
    ensures Encode(ps)[2..] == Encode(ps[1..])
    ensures Encode(ps)[0] == ps[0].key && Encode(ps)[1] == ps[0].value
  {
    var s, t := Encode(ps), Encode(ps[1..]);
    forall i | 0 <= i < |t| ensures s[2..][i] == t[i] {
      assert s[2..][i] == s[i + 2] && (i + 2) / 2 == i / 2 + 1;
    }
  }

  lemma {:induction false} DecodeOfEncode(ps: seq<Pair>)
    requires KeysNonZero(ps)
    ensures Decode(Encode(ps)) == ps
  {
    if ps != [] {
      EncodeTail(ps);
      DecodeOfEncode(ps[1..]);
      hide Encode;
      assert [ps[0]] + ps[1..] == ps;
    }
  }

  /** What a caller passes: a null pointer for no properties, or an array that begins with the pairs and a zero. */
  ghost predicate Represents(properties: array?<bv64>, ps: seq<Pair>)
    reads properties
  {
    KeysNonZero(ps) && if properties == null then ps == [] else Encode(ps) <= properties[..]
  }

  lemma Elements(properties: array<bv64>, ps: seq<Pair>, k: nat)
    requires Represents(properties, ps) && k <= |ps|
    ensures k < |ps| ==> ps[k].key != 0
    ensures properties.Length > 2 * |ps| && (k == |ps| ==> properties[2 * k] == 0)
    ensures k < |ps| ==> properties[2 * k] == ps[k].key && properties[2 * k + 1] == ps[k].value
  {
    assert properties[..][2 * k] == Encode(ps)[2 * k];
    if k < |ps| {
      assert properties[..][2 * k + 1] == Encode(ps)[2 * k + 1];
    }
  }

  // ---- The rewriting ----

  predicate HasKey(ps: seq<Pair>, key: bv64) { exists i :: 0 <= i < |ps| && ps[i].key == key }

  function Rewrite(p: Pair, configuration: bv64): Pair {
    if p.key == CL_QUEUE_MDAPI_PROPERTIES_INTEL then Pair(p.key, CL_QUEUE_MDAPI_ENABLE_INTEL)
    else if p.key == CL_QUEUE_MDAPI_CONFIGURATION_INTEL then Pair(p.key, configuration)
    else p
  }

  function RewriteAll(ps: seq<Pair>, configuration: bv64): seq<Pair> {
    seq(|ps|, i requires 0 <= i < |ps| => Rewrite(ps[i], configuration))
  }

  function Added(ps: seq<Pair>, configuration: bv64): seq<Pair> {
    (if HasKey(ps, CL_QUEUE_MDAPI_PROPERTIES_INTEL) then []
     else [Pair(CL_QUEUE_MDAPI_PROPERTIES_INTEL, CL_QUEUE_MDAPI_ENABLE_INTEL)])
    + (if HasKey(ps, CL_QUEUE_MDAPI_CONFIGURATION_INTEL) then []
       else [Pair(CL_QUEUE_MDAPI_CONFIGURATION_INTEL, configuration)])
  }

  function Rewritten(ps: seq<Pair>, configuration: bv64): seq<Pair> {
    RewriteAll(ps, configuration) + Added(ps, configuration)
  }

  /** The first pass: how long the array is, and which metrics properties it lacks. */
  method ScanProperties(properties: array?<bv64>, ghost ps: seq<Pair>)
    returns (numProperties: nat, addProperties: bool, addConfiguration: bool)
    requires Represents(properties, ps)
    ensures numProperties == 2 * |ps|
    ensures addProperties == !HasKey(ps, CL_QUEUE_MDAPI_PROPERTIES_INTEL)
    ensures addConfiguration == !HasKey(ps, CL_QUEUE_MDAPI_CONFIGURATION_INTEL)
  {
    hide Encode, HasKey;
    numProperties, addProperties, addConfiguration := 0, true, true;
    NoKeys();
    ghost var k := 0;
    assert ps[..0] == [];
    if properties != null {
      Elements(properties, ps, 0);
      while properties[numProperties] != 0
        invariant numProperties == 2 * k && k <= |ps| && numProperties < properties.Length
        invariant properties[numProperties] != 0 <==> k < |ps|
        invariant addProperties == !HasKey(ps[..k], CL_QUEUE_MDAPI_PROPERTIES_INTEL)
        invariant addConfiguration == !HasKey(ps[..k], CL_QUEUE_MDAPI_CONFIGURATION_INTEL)
        decreases properties.Length - numProperties
      {
        Elements(properties, ps, k);
        HasKeySnoc(ps, k, CL_QUEUE_MDAPI_PROPERTIES_INTEL);
        HasKeySnoc(ps, k, CL_QUEUE_MDAPI_CONFIGURATION_INTEL);
        if properties[numProperties] == CL_QUEUE_MDAPI_PROPERTIES_INTEL {
          addProperties := false;
        } else if properties[numProperties] == CL_QUEUE_MDAPI_CONFIGURATION_INTEL {
          addConfiguration := false;
        }
        numProperties, k := numProperties + 2, k + 1;
        Elements(properties, ps, k);
      }
    }
    assert ps[..k] == ps;
  }

  method CreateMDAPICommandQueueProperties(configuration: bv64, properties: array?<bv64>, ghost ps: seq<Pair>)
    returns (local: array<bv64>)
    requires Represents(properties, ps)
    ensures fresh(local) && local[..] == Encode(Rewritten(ps, configuration))
  {
    RewrittenParts(ps, configuration);
    hide Encode, HasKey, Rewritten, Represents;
    var numProperties, addProperties, addConfiguration := ScanProperties(properties, ps);
    if addProperties {
      numProperties := numProperties + 2;
    }
    if addConfiguration {
      numProperties := numProperties + 2;
    }
    ghost var all, k := Rewritten(ps, configuration), |ps|;
    local := new bv64[numProperties + 1];
    numProperties := CopyProperties(configuration, properties, local, ps, all);
    if addProperties {
      PutPair(local, numProperties, CL_QUEUE_MDAPI_PROPERTIES_INTEL, CL_QUEUE_MDAPI_ENABLE_INTEL, all, k);
      numProperties, k := numProperties + 2, k + 1;
    }
    if addConfiguration {
      PutPair(local, numProperties, CL_QUEUE_MDAPI_CONFIGURATION_INTEL, configuration, all, k);
      numProperties, k := numProperties + 2, k + 1;
    }
    local[numProperties] := 0;
    Terminated(local[..], all);
  }

  lemma Terminated(s: seq<bv64>, all: seq<Pair>)
    requires |s| == 2 * |all| + 1 && s[2 * |all|] == 0 && s[..2 * |all|] == Encode(all)[..2 * |all|]
    ensures s == Encode(all)
  {
    hide Encode;
    assert s == s[..2 * |all|] + [0];
    assert Encode(all) == Encode(all)[..2 * |all|] + [0];
  }

  /** The second pass: the old pairs, with the metrics values replaced. */
  method CopyProperties(configuration: bv64, properties: array?<bv64>, local: array<bv64>,
                        ghost ps: seq<Pair>, ghost all: seq<Pair>)
    returns (numProperties: nat)
    requires Represents(properties, ps) && properties != local && |ps| <= |all| && local.Length == 2 * |all| + 1
    requires forall i :: 0 <= i < |ps| ==> all[i] == Rewrite(ps[i], configuration)
    modifies local
    ensures numProperties == 2 * |ps| && local[..numProperties] == Encode(all)[..numProperties]
  {
    hide Encode;
    NullIsEmpty(properties, ps);
    numProperties := 0;
    ghost var k := 0;
    if properties != null {
      Elements(properties, ps, 0);
      while properties[numProperties] != 0
        invariant numProperties == 2 * k && k <= |ps| && numProperties < properties.Length
        invariant properties[numProperties] != 0 <==> k < |ps|
        invariant local[..numProperties] == Encode(all)[..numProperties]
        decreases properties.Length - numProperties
      {
        Elements(properties, ps, k);
        var key, value := properties[numProperties], properties[numProperties + 1];
        if key == CL_QUEUE_MDAPI_PROPERTIES_INTEL {
          value := CL_QUEUE_MDAPI_ENABLE_INTEL;
        } else if key == CL_QUEUE_MDAPI_CONFIGURATION_INTEL {
          value := configuration;
        }
        PutPair(local, numProperties, key, value, all, k);
        numProperties, k := numProperties + 2, k + 1;
        Elements(properties, ps, k);
      }
    }
  }

  /** Writes pair `k` of `all` at index `n`. */
  method PutPair(local: array<bv64>, n: nat, key: bv64, value: bv64, ghost all: seq<Pair>, ghost k: nat)
    requires n == 2 * k && k < |all| && local.Length == 2 * |all| + 1 && all[k] == Pair(key, value)
    requires local[..n] == Encode(all)[..n]
    modifies local
    ensures local[..n + 2] == Encode(all)[..n + 2]
  {
    PairAt(all, k);
    hide Encode;
    local[n] := key;
    local[n + 1] := value;
    TakeTwo(local[..], Encode(all), n);
  }

  lemma NullIsEmpty(properties: array?<bv64>, ps: seq<Pair>)
    requires Represents(properties, ps)
    ensures properties == null ==> ps == []
  {
  }

  /** The rewritten pairs by position. */
  lemma RewrittenParts(ps: seq<Pair>, configuration: bv64)
    ensures var all, n := Rewritten(ps, configuration), |ps|;
            var p, c := HasKey(ps, CL_QUEUE_MDAPI_PROPERTIES_INTEL), HasKey(ps, CL_QUEUE_MDAPI_CONFIGURATION_INTEL);
            && |all| == n + (if p then 0 else 1) + (if c then 0 else 1)
            && (forall i :: 0 <= i < n ==> all[i] == Rewrite(ps[i], configuration))
            && (!p ==> all[n] == Pair(CL_QUEUE_MDAPI_PROPERTIES_INTEL, CL_QUEUE_MDAPI_ENABLE_INTEL))
            && (!c ==> all[|all| - 1] == Pair(CL_QUEUE_MDAPI_CONFIGURATION_INTEL, configuration))
  {
    hide HasKey;
  }

  lemma NoKeys()
    ensures forall key :: !HasKey([], key)
  {
  }

  lemma TakeTwo(a: seq<bv64>, b: seq<bv64>, n: nat)
    requires n + 2 <= |a| && n + 2 <= |b| && a[..n] == b[..n] && a[n] == b[n] && a[n + 1] == b[n + 1]
    ensures a[..n + 2] == b[..n + 2]
  {
    assert a[..n + 2] == a[..n] + [a[n], a[n + 1]];
    assert b[..n + 2] == b[..n] + [b[n], b[n + 1]];
  }

  lemma PairAt(ps: seq<Pair>, k: nat)
    requires k < |ps|
    ensures 2 * k + 1 < |Encode(ps)| && Encode(ps)[2 * k] == ps[k].key && Encode(ps)[2 * k + 1] == ps[k].value
  {
  }

  lemma HasKeySnoc(ps: seq<Pair>, k: nat, key: bv64)
    requires k < |ps|
    ensures HasKey(ps[..k + 1], key) <==> HasKey(ps[..k], key) || ps[k].key == key
  {
    if HasKey(ps[..k], key) {
      var i :| 0 <= i < k && ps[..k][i].key == key;
      assert ps[..k + 1][i].key == key;
    }
    if ps[k].key == key {
      assert ps[..k + 1][k].key == key;
    }
  }

  // ---- What the rewriting keeps and provides ----

  predicate IsMdapi(key: bv64) {
    key == CL_QUEUE_MDAPI_PROPERTIES_INTEL || key == CL_QUEUE_MDAPI_CONFIGURATION_INTEL
  }

  /** The pairs that are not about metrics, in order. */
  function Others(ps: seq<Pair>): seq<Pair> {
    if ps == [] then []
    else Others(ps[..|ps| - 1]) + (if IsMdapi(ps[|ps| - 1].key) then [] else [ps[|ps| - 1]])
  }

  lemma {:induction false} OthersAppend(a: seq<Pair>, b: seq<Pair>)
    ensures Others(a + b) == Others(a) + Others(b)
  {
    if b == [] {
      assert a + b == a;
    } else {
      OthersAppend(a, b[..|b| - 1]);
      assert (a + b)[..|a + b| - 1] == a + b[..|b| - 1];
    }
  }

  lemma {:induction false} OthersOfRewriteAll(ps: seq<Pair>, configuration: bv64)
    ensures Others(RewriteAll(ps, configuration)) == Others(ps)
  {
    if ps != [] {
      OthersOfRewriteAll(ps[..|ps| - 1], configuration);
      assert RewriteAll(ps, configuration)[..|ps| - 1] == RewriteAll(ps[..|ps| - 1], configuration);
    }
  }

  lemma OthersOfAdded(ps: seq<Pair>, configuration: bv64)
    ensures Others(Added(ps, configuration)) == []
  {
    var a := Added(ps, configuration);
    assert forall i :: 0 <= i < |a| ==> IsMdapi(a[i].key);
    OthersOfMdapi(a);
  }

  lemma {:induction false} OthersOfMdapi(ps: seq<Pair>)
    requires forall i :: 0 <= i < |ps| ==> IsMdapi(ps[i].key)
    ensures Others(ps) == []
  {
    if ps != [] {
      OthersOfMdapi(ps[..|ps| - 1]);
    }
  }

  /** Every pair that is not about metrics survives, unchanged and in order. */
  lemma OthersPreserved(ps: seq<Pair>, configuration: bv64)
    ensures Others(Rewritten(ps, configuration)) == Others(ps)
  {
    OthersAppend(RewriteAll(ps, configuration), Added(ps, configuration));
    OthersOfRewriteAll(ps, configuration);
    OthersOfAdded(ps, configuration);
  }

  /** `key` is present, and every occurrence of it has `value`: any lookup finds it. */
  predicate Provides(ps: seq<Pair>, key: bv64, value: bv64) {
    HasKey(ps, key) && forall i :: 0 <= i < |ps| && ps[i].key == key ==> ps[i].value == value
  }

  lemma MetricsProvided(ps: seq<Pair>, configuration: bv64)
    ensures var all := Rewritten(ps, configuration);
            Provides(all, 0x425E, 1) && Provides(all, 0x425F, configuration)
  {
    var all, n := Rewritten(ps, configuration), |ps|;
    forall key | IsMdapi(key) ensures HasKey(all, key) {
      if i :| 0 <= i < n && ps[i].key == key {
        assert all[i].key == key;
      } else {
        assert all[n].key == key || all[n + 1].key == key;
      }
    }
    assert forall i :: 0 <= i < n ==> all[i] == Rewrite(ps[i], configuration);
  }

  /**
   Pair by pair: every pair keeps its place and its key, only the two metrics properties change their values, and
   what is added at the end are metrics properties, each only when it was missing.
   */
  lemma PairsRewritten(ps: seq<Pair>, configuration: bv64)
    ensures var all := Rewritten(ps, configuration);
            && |ps| <= |all|
            && (forall i :: 0 <= i < |ps| ==>
                  all[i] == if ps[i].key == 0x425E then Pair(0x425E, 1)
                            else if ps[i].key == 0x425F then Pair(0x425F, configuration) else ps[i])
            && all[|ps|..] == (if forall i :: 0 <= i < |ps| ==> ps[i].key != 0x425E then [Pair(0x425E, 1)] else [])
                              + (if forall i :: 0 <= i < |ps| ==> ps[i].key != 0x425F then [Pair(0x425F, configuration)] else [])
  {
  }

  /** An element of the array: keys at even places, their values after them, and a zero at the end. */
  lemma EncodedAt(ps: seq<Pair>, k: nat)
    requires k <= |ps|
    ensures var s := Encode(ps);
            |s| == 2 * |ps| + 1 && (if k == |ps| then s[2 * k] == 0 else s[2 * k] == ps[k].key && s[2 * k + 1] == ps[k].value)
  {
  }

  /** Rewriting what was rewritten changes nothing. */
  lemma RewritingIdempotent(ps: seq<Pair>, configuration: bv64)
    ensures Rewritten(Rewritten(ps, configuration), configuration) == Rewritten(ps, configuration)
  {
    var all := Rewritten(ps, configuration);
    MetricsProvided(ps, configuration);
    assert forall i :: 0 <= i < |all| ==> Rewrite(all[i], configuration) == all[i];
  }

  /** Keys stay non-zero, so the rewritten array is terminated where its pairs end and nowhere before. */
  lemma RewrittenReadsBack(ps: seq<Pair>, configuration: bv64)
    requires KeysNonZero(ps)
    ensures Decode(Encode(Rewritten(ps, configuration))) == Rewritten(ps, configuration)
  {
    DecodeOfEncode(Rewritten(ps, configuration));
  }

  // ---- The bitfield ----

  function QueueBit(p: Pair): bv64 { if p.key == CL_QUEUE_PROPERTIES then p.value else 0 }

  /** The values of CL_QUEUE_PROPERTIES pairs, or-ed together. */
  function QueueBits(ps: seq<Pair>): bv64 {
    if ps == [] then 0 else Or(QueueBits(ps[..|ps| - 1]), QueueBit(ps[|ps| - 1]))
  }

  function Or(a: bv64, b: bv64): bv64 { a | b }

  predicate KnownBits(value: bv64) { value == 0 || value == 1 || value == 2 || value == 3 }

  predicate Known(p: Pair) { p.key == CL_QUEUE_PROPERTIES && KnownBits(p.value) }

  predicate Convertible(ps: seq<Pair>) { forall i :: 0 <= i < |ps| ==> Known(ps[i]) }

  /** Convertible are the lists of queue properties with profiling, out-of-order execution, both or neither. */
  lemma ConvertibleIs(ps: seq<Pair>)
    ensures Convertible(ps) <==> forall i :: 0 <= i < |ps| ==> ps[i].key == 0x1093 && ps[i].value in {0, 1, 2, 3}
  {
  }

  method ConvertPropertiesArrayToBitfield(properties: array?<bv64>, bits: bv64, ghost ps: seq<Pair>)
    returns (ok: bool, propertiesBits: bv64)
    requires Represents(properties, ps)
    ensures ok <==> Convertible(ps)
    ensures ok ==> propertiesBits == Or(bits, QueueBits(ps))
    ensures !ok ==> exists k :: 0 <= k < |ps| && Convertible(ps[..k]) && !Known(ps[k]) && propertiesBits == Or(bits, QueueBits(ps[..k]))
  {
    hide Encode, QueueBits, Or;
    propertiesBits := bits;
    ghost var k := 0;
    NoBits(bits);
    assert ps[..0] == [];
    if properties != null {
      Elements(properties, ps, 0);
      var i := 0;
      while properties[i] != 0
        invariant i == 2 * k && k <= |ps| && i < properties.Length
        invariant properties[i] != 0 <==> k < |ps|
        invariant Convertible(ps[..k]) && propertiesBits == Or(bits, QueueBits(ps[..k]))
        decreases properties.Length - i
      {
        Elements(properties, ps, k);
        if properties[i] == CL_QUEUE_PROPERTIES {
          var value := properties[i + 1];
          if value == 0 || value == CL_QUEUE_PROFILING_ENABLE || value == CL_QUEUE_OUT_OF_ORDER_EXEC_MODE_ENABLE
             || value == CL_QUEUE_PROFILING_ENABLE | CL_QUEUE_OUT_OF_ORDER_EXEC_MODE_ENABLE
          {
            BitsSnoc(bits, ps, k);
            propertiesBits := Or(propertiesBits, value);
          } else {
            return false, propertiesBits;
          }
        } else {
          return false, propertiesBits;
        }
        assert ps[..k + 1] == ps[..k] + [ps[k]];
        i, k := i + 2, k + 1;
        Elements(properties, ps, k);
      }
    }
    assert ps[..k] == ps;
    ok := true;
  }

  lemma NoBits(bits: bv64)
    ensures Or(bits, QueueBits([])) == bits
  {
  }

  lemma BitsSnoc(bits: bv64, ps: seq<Pair>, k: nat)
    requires k < |ps|
    ensures Or(bits, QueueBits(ps[..k + 1])) == Or(Or(bits, QueueBits(ps[..k])), QueueBit(ps[k]))
  {
    assert ps[..k + 1][..k] == ps[..k];
    OrAssociative(bits, QueueBits(ps[..k]), QueueBit(ps[k]));
    hide QueueBit, Or;
  }

  lemma OrAssociative(a: bv64, b: bv64, c: bv64)
    ensures Or(a, Or(b, c)) == Or(Or(a, b), c)
  {
  }

  lemma OrZero(a: bv64)
    ensures Or(a, 0) == a
  {
  }

  lemma MetricsAreNotBits(p: Pair)
    requires IsMdapi(p.key)
    ensures QueueBit(p) == 0
  {
  }

  lemma {:induction false} QueueBitsOfOthers(ps: seq<Pair>)
    ensures QueueBits(Others(ps)) == QueueBits(ps)
  {
    hide QueueBit, IsMdapi, Or;
    if ps != [] {
      var pre, last := ps[..|ps| - 1], ps[|ps| - 1];
      QueueBitsOfOthers(pre);
      if IsMdapi(last.key) {
        MetricsAreNotBits(last);
        OrZero(QueueBits(pre));
        assert Others(pre) + [] == Others(pre);
      } else {
        assert (Others(pre) + [last])[..|Others(pre)|] == Others(pre);
      }
    }
  }

  /** The bitfield holds exactly the queue properties that the rewritten array still has. */
  lemma BitsSurviveRewriting(ps: seq<Pair>, configuration: bv64)
    ensures QueueBits(Rewritten(ps, configuration)) == QueueBits(ps)
  {
    QueueBitsOfOthers(ps);
    QueueBitsOfOthers(Rewritten(ps, configuration));
    OthersPreserved(ps, configuration);
  }

  lemma OrCommutes(a: bv64, b: bv64)
    ensures Or(a, b) == Or(b, a)
  {
  }

  lemma OrTwice(a: bv64)
    ensures Or(a, a) == a
  {
  }

  lemma OrIs(a: bv64, b: bv64)
    ensures Or(a, b) == a | b
  {
  }

  /** `bits` has all the bits of `value`. */
  ghost predicate Covers(bits: bv64, value: bv64) { Or(bits, value) == bits }

  lemma CoversOr(bits: bv64, a: bv64, b: bv64)
    ensures Covers(Or(a, b), b)
    ensures Covers(a, bits) ==> Covers(Or(a, b), bits)
    ensures Covers(bits, a) && Covers(bits, b) ==> Covers(bits, Or(a, b))
  {
    OrAssociative(a, b, b);
    OrTwice(b);
    OrAssociative(a, b, bits);
    OrAssociative(a, bits, b);
    OrCommutes(b, bits);
    OrAssociative(bits, a, b);
    hide Or;
  }

  lemma CoversNone(bits: bv64)
    ensures Covers(bits, 0)
  {
  }

  /** The bitfield has all the bits of every queue property in the list, and no others. */
  lemma {:induction false} BitsAreUnion(ps: seq<Pair>, bits: bv64)
    ensures forall i :: 0 <= i < |ps| && ps[i].key == 0x1093 ==> Covers(QueueBits(ps), ps[i].value)
    ensures (forall i :: 0 <= i < |ps| && ps[i].key == 0x1093 ==> Covers(bits, ps[i].value)) ==> Covers(bits, QueueBits(ps))
  {
    hide Or, Covers;
    CoversNone(bits);
    if ps != [] {
      var n := |ps| - 1;
      var pre, last := QueueBits(ps[..n]), QueueBit(ps[n]);
      BitsAreUnion(ps[..n], bits);
      CoversNone(pre);
      forall i | 0 <= i < |ps| && ps[i].key == 0x1093 ensures Covers(QueueBits(ps), ps[i].value) {
        assert i < n ==> ps[..n][i] == ps[i];
        CoversOr(ps[i].value, pre, last);
      }
      CoversOr(bits, pre, last);
      assert forall i :: 0 <= i < n ==> ps[..n][i] == ps[i];
    }
  }
}
