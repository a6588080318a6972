/** The content fingerprint of the Kafka Secret: the byte string that is fed to
    SHA-256. The hash itself is not modelled; a fingerprint here is its pre-image. */
module Fingerprint {
  import opened Text

  const NUL: char := '\0'

  // --- the order of sort.Strings ---

  predicate Below(a: string, b: string) {
    b != "" && (a == "" || a[0] < b[0] || (a[0] == b[0] && Below(a[1..], b[1..])))
  }

  lemma {:induction false} BelowTotal(a: string, b: string)
    ensures a == b || Below(a, b) || Below(b, a)
    ensures !(Below(a, b) && Below(b, a)) && !Below(a, a)
  {
    if a != "" {
      BelowTotal(a[1..], a[1..]);
      if b != "" {
        BelowTotal(a[1..], b[1..]);
        assert a == [a[0]] + a[1..] && b == [b[0]] + b[1..];
      }
    }
  }

  lemma {:induction false} BelowTransitive(a: string, b: string, c: string)
    requires Below(a, b) && Below(b, c)
    ensures Below(a, c)
  {
    if a != "" && a[0] == b[0] == c[0] {
      BelowTransitive(a[1..], b[1..], c[1..]);
    }
  }

  predicate Sorted(ks: seq<string>) {
    forall i, j :: 0 <= i < j < |ks| ==> Below(ks[i], ks[j])
  }

  function Insert(ks: seq<string>, k: string): (r: seq<string>)
    requires Sorted(ks) && k !in ks
    ensures Sorted(r)
    ensures forall x :: x in r <==> x in ks || x == k
  {
    if ks == [] then [k]
    else
      BelowTotal(k, ks[0]);
      if Below(k, ks[0]) then
        assert forall x :: x in ks && Below(ks[0], x) ==> Below(k, x) by {
          forall x | x in ks && Below(ks[0], x) { BelowTransitive(k, ks[0], x); }
        }
        [k] + ks
      else
        var rest := Insert(ks[1..], k);
        assert forall x :: x in rest ==> Below(ks[0], x);
        [ks[0]] + rest
  }

  /** The keys of a map in ascending order. */
  ghost function SortedKeys(s: set<string>): (ks: seq<string>)
    ensures Sorted(ks)
    ensures forall k :: k in ks <==> k in s
  {
    if s == {} then []
    else
      var k :| k in s;
      Insert(SortedKeys(s - {k}), k)
  }

  lemma SortedHead(ks: seq<string>)
    requires Sorted(ks) && ks != []
    ensures forall k :: k in ks <==> k == ks[0] || k in ks[1..]
    ensures forall k :: k in ks[1..] ==> Below(ks[0], k) && k != ks[0]
  {
    assert ks == [ks[0]] + ks[1..];
    BelowTotal(ks[0], ks[0]);
  }

  lemma {:induction false} SortedUnique(a: seq<string>, b: seq<string>)
    requires Sorted(a) && Sorted(b)
    requires forall k :: k in a <==> k in b
    ensures a == b
  {
    assert a != [] ==> a[0] in b;
    assert b != [] ==> b[0] in a;
    if a != [] {
      SortedHead(a);
      SortedHead(b);
      BelowTotal(a[0], b[0]);
      SortedUnique(a[1..], b[1..]);
    }
  }

  method SortStrings(keys: seq<string>) returns (sorted: seq<string>)
    requires forall i, j :: 0 <= i < j < |keys| ==> keys[i] != keys[j]
    ensures Sorted(sorted)
    ensures forall k :: k in sorted <==> k in keys
  {
    sorted := [];
    for i := 0 to |keys|
      invariant Sorted(sorted)
      invariant forall k :: k in sorted <==> k in keys[..i]
    {
      sorted := Insert(sorted, keys[i]);
    }
  }

  // --- the pre-image ---

  function Pairs(ks: seq<string>, data: map<string, string>): string
    requires forall k :: k in ks ==> k in data
  {
    if ks == [] then ""
    else ks[0] + [NUL] + (data[ks[0]] + [NUL] + Pairs(ks[1..], data))
  }

  ghost function Preimage(name: string, data: map<string, string>): string {
    name + [NUL] + Pairs(SortedKeys(data.Keys), data)
  }

  lemma {:induction false} PairsStep(ks: seq<string>, data: map<string, string>, i: nat)
    requires forall k :: k in ks ==> k in data
    requires i < |ks|
    ensures Pairs(ks[..i + 1], data) == Pairs(ks[..i], data) + ks[i] + [NUL] + data[ks[i]] + [NUL]
  {
    if i > 0 {
      PairsStep(ks[1..], data, i - 1);
      assert ks[1..][..i - 1] == ks[..i][1..] && ks[1..][..i] == ks[..i + 1][1..];
    } else {
      assert ks[..1] == [ks[0]] && Pairs(ks[..1][1..], data) == "";
    }
  }

  lemma PairsGrow(start: string, ks: seq<string>, data: map<string, string>, i: nat)
    requires forall k :: k in ks ==> k in data
    requires i < |ks|
    ensures start + Pairs(ks[..i], data) + ks[i] + [NUL] + data[ks[i]] + [NUL] == start + Pairs(ks[..i + 1], data)
  {
    PairsStep(ks, data, i);
    AppendInParts(start, Pairs(ks[..i], data), ks[i], data[ks[i]]);
  }

  lemma AppendInParts(start: string, pairs: string, k: string, v: string)
    ensures start + pairs + k + [NUL] + v + [NUL] == start + (pairs + k + [NUL] + v + [NUL])
  {
  }

  /** Ranging over a map yields its keys in no particular order. */
  method Keys(data: map<string, string>) returns (keys: seq<string>)
    ensures forall k :: k in keys <==> k in data
    ensures forall i, j :: 0 <= i < j < |keys| ==> keys[i] != keys[j]
  {
    keys := [];
    var left := data.Keys;
    while left != {}
      invariant left <= data.Keys
      invariant forall k :: k in keys <==> k in data && k !in left
      invariant forall i, j :: 0 <= i < j < |keys| ==> keys[i] != keys[j]
      decreases left
    {
      var k :| k in left;
      left := left - {k};
      keys := keys + [k];
    }
  }

  /** The fingerprint does not depend on the order in which the keys come. */
  method KafkaFingerprint(name: string, data: map<string, string>) returns (h: string)
    ensures h == Preimage(name, data)
  {
    var keys := Keys(data);
    keys := SortStrings(keys);
    SortedUnique(keys, SortedKeys(data.Keys));
    h := name;
    h := h + [NUL];
    ghost var start := h;
    for i := 0 to |keys|
      invariant h == start + Pairs(keys[..i], data)
    {
      PairsGrow(start, keys, data, i);
      h := h + keys[i];
      h := h + [NUL];
      h := h + data[keys[i]];
      h := h + [NUL];
    }
    assert keys[..|keys|] == keys;
  }

  // --- the decoder ---

  function CollectPairs(fields: seq<string>): map<string, string> {
    if |fields| < 2 then map[]
    else CollectPairs(fields[2..])[fields[0] := fields[1]]
  }

  function Decode(p: string): (string, map<string, string>) {
    var fields := Split(p, NUL);
    (fields[0], CollectPairs(fields[1..]))
  }

  predicate NulFree(name: string, data: map<string, string>) {
    NUL !in name && forall k :: k in data ==> NUL !in k && NUL !in data[k]
  }

  lemma {:induction false} DecodePairs(ks: seq<string>, data: map<string, string>)
    requires Sorted(ks)
    requires forall k :: k in ks ==> k in data && NUL !in k && NUL !in data[k]
    ensures CollectPairs(Split(Pairs(ks, data), NUL)) == map k | k in ks :: data[k]
  {
    if ks != [] {
      var rest := Pairs(ks[1..], data);
      SplitFirst(ks[0], NUL, data[ks[0]] + [NUL] + rest);
      SplitFirst(data[ks[0]], NUL, rest);
      var fields := Split(Pairs(ks, data), NUL);
      assert fields == [ks[0], data[ks[0]]] + Split(rest, NUL);
      assert fields[2..] == Split(rest, NUL);
      DecodePairs(ks[1..], data);
      SortedHead(ks);
    }
  }

  /** Without zero bytes the name and the whole map can be read back. */
  lemma PreimageDecodes(name: string, data: map<string, string>)
    requires NulFree(name, data)
    ensures Decode(Preimage(name, data)) == (name, data)
  {
    var ks := SortedKeys(data.Keys);
    SplitFirst(name, NUL, Pairs(ks, data));
    DecodePairs(ks, data);
    assert (map k | k in ks :: data[k]) == data;
  }

  // --- collisions ---

  function Nuls(s: string): nat {
    if s == "" then 0 else (if s[0] == NUL then 1 else 0) + Nuls(s[1..])
  }

  lemma {:induction false} NulsAppend(a: string, b: string)
    ensures Nuls(a + b) == Nuls(a) + Nuls(b)
    ensures Nuls(a) == 0 <==> NUL !in a
  {
    if a == "" {
      assert a + b == b;
    } else {
      NulsAppend(a[1..], b);
      assert (a + b)[1..] == a[1..] + b && a == [a[0]] + a[1..];
    }
  }

  lemma {:induction false} NulsOfPairs(ks: seq<string>, data: map<string, string>)
    requires forall k :: k in ks ==> k in data
    ensures Nuls(Pairs(ks, data)) >= 2 * |ks|
    ensures Nuls(Pairs(ks, data)) == 2 * |ks| <==> forall k :: k in ks ==> NUL !in k && NUL !in data[k]
  {
    if ks != [] {
      var k, v, rest := ks[0], data[ks[0]], Pairs(ks[1..], data);
      NulsOfPairs(ks[1..], data);
      NulsAppend(k + [NUL], v + [NUL] + rest);
      NulsAppend(k, [NUL]);
      NulsAppend(v + [NUL], rest);
      NulsAppend(v, [NUL]);
      assert ks == [k] + ks[1..];
    }
  }

  lemma {:induction false} SortedKeysSize(s: set<string>)
    ensures |SortedKeys(s)| == |s|
  {
    var ks := SortedKeys(s);
    if s != {} {
      assert ks != [] by { var k :| k in s; }
      assert ks[0] in ks;
      SortedHead(ks);
      SortedKeysSize(s - {ks[0]});
      SortedUnique(ks[1..], SortedKeys(s - {ks[0]}));
    }
  }

  lemma NulsOfPreimage(name: string, data: map<string, string>)
    ensures Nuls(Preimage(name, data)) >= 1 + 2 * |data|
    ensures Nuls(Preimage(name, data)) == 1 + 2 * |data| <==> NulFree(name, data)
  {
    var ks := SortedKeys(data.Keys);
    SortedKeysSize(data.Keys);
    NulsAppend(name + [NUL], Pairs(ks, data));
    NulsAppend(name, [NUL]);
    NulsOfPairs(ks, data);
  }

  /** Two references without zero bytes have the same fingerprint exactly when
      they name the same Secret with the same contents. If only one of them is
      free of zero bytes, a clash needs the other one to hold fewer keys. */
  lemma FingerprintIdentifies(name: string, data: map<string, string>, name': string, data': map<string, string>)
    requires NulFree(name, data)
    requires NulFree(name', data') || |data'| >= |data|
    ensures Preimage(name, data) == Preimage(name', data') <==> name == name' && data == data'
  {
    if Preimage(name, data) == Preimage(name', data') {
      NulsOfPreimage(name, data);
      NulsOfPreimage(name', data');
      PreimageDecodes(name, data);
      PreimageDecodes(name', data');
    }
  }

  /** With a zero byte inside a value two different Secrets do clash. */
  lemma ZeroByteCollision()
    ensures var one, two := map["a" := "b\0c\0d"], map["a" := "b", "c" := "d"];
            one != two && forall name :: Preimage(name, one) == Preimage(name, two)
  {
    var one, two := map["a" := "b\0c\0d"], map["a" := "b", "c" := "d"];
    SortedUnique(SortedKeys(one.Keys), ["a"]);
    assert Below("a", "c");
    SortedUnique(SortedKeys(two.Keys), ["a", "c"]);
    assert Pairs(["c"], two) == "c\0d\0" by { assert Pairs(["c"][1..], two) == ""; }
    assert Pairs(["a", "c"], two) == "a\0b\0c\0d\0" by { assert ["a", "c"][1..] == ["c"]; }
    assert Pairs(["a"], one) == "a\0b\0c\0d\0" by { assert Pairs(["a"][1..], one) == ""; }
    assert "c" in two && "c" !in one;
  }

  /** A Secret like `data`, but key `b` and its value have become part of the value
      of `a`. */
  function Absorb(data: map<string, string>, a: string, b: string): map<string, string>
    requires a in data && b in data
  {
    (data - {b})[a := data[a] + [NUL] + b + [NUL] + data[b]]
  }

  lemma {:induction false} PairsAgree(ks: seq<string>, one: map<string, string>, two: map<string, string>)
    requires forall k :: k in ks ==> k in one && k in two && one[k] == two[k]
    ensures Pairs(ks, one) == Pairs(ks, two)
  {
    if ks != [] {
      PairsAgree(ks[1..], one, two);
    }
  }

  lemma AbsorbInParts(a: string, v: string, b: string, w: string, rest: string)
    ensures a + [NUL] + (v + [NUL] + (b + [NUL] + (w + [NUL] + rest)))
            == a + [NUL] + ((v + [NUL] + b + [NUL] + w) + [NUL] + rest)
  {
  }

  /** If they are the two first keys, the bytes are the same. */
  lemma AbsorbedPairs(data: map<string, string>, a: string, b: string, rest: seq<string>)
    requires a in data && b in data && a != b
    requires forall k :: k in rest ==> k in data && k != a && k != b
    ensures Pairs([a] + rest, Absorb(data, a, b)) == Pairs([a, b] + rest, data)
  {
    var other := Absorb(data, a, b);
    PairsAgree(rest, data, other);
    assert ([a] + rest)[1..] == rest;
    assert ([a, b] + rest)[1..] == [b] + rest && ([b] + rest)[1..] == rest;
    AbsorbInParts(a, data[a], b, data[b], Pairs(rest, data));
  }

  lemma FirstTwo(ks: seq<string>) returns (a: string, b: string, rest: seq<string>)
    requires Sorted(ks) && |ks| >= 2
    ensures ks == [a, b] + rest && a != b
    ensures forall k :: k in rest ==> k != a && k != b
    ensures Sorted([a] + rest)
  {
    a, b, rest := ks[0], ks[1], ks[2..];
    SortedHead(ks);
    SortedHead(ks[1..]);
    assert ks[1..][0] == b && ks[1..][1..] == rest;
  }

  lemma KeysOfAbsorbed(data: map<string, string>, a: string, b: string, rest: seq<string>)
    requires a != b && a in data && b in data
    requires forall k :: k in [a, b] + rest <==> k in data
    requires (forall k :: k in rest ==> k != a && k != b) && Sorted([a] + rest)
    ensures SortedKeys(Absorb(data, a, b).Keys) == [a] + rest
  {
    var other := Absorb(data, a, b);
    forall k
      ensures k in [a] + rest <==> k in other.Keys
    {
      assert k in [a, b] + rest <==> k == a || k == b || k in rest;
    }
    SortedUnique(SortedKeys(other.Keys), [a] + rest);
  }

  /** Every Secret with two keys or more has a twin with the same bytes under every
      name, and one key less. */
  lemma Twin(data: map<string, string>) returns (other: map<string, string>)
    requires |data| >= 2
    ensures other.Keys < data.Keys
    ensures forall name :: Preimage(name, other) == Preimage(name, data)
  {
    SortedKeysSize(data.Keys);
    var ks := SortedKeys(data.Keys);
    var a, b, rest := FirstTwo(ks);
    assert ks[0] == a && ks[1] == b;
    assert a in ks && b in ks;
    other := Absorb(data, a, b);
    assert b in data.Keys && b !in other.Keys;
    KeysOfAbsorbed(data, a, b, rest);
    forall k | k in rest
      ensures k in data
    {
      assert k in ks;
    }
    AbsorbedPairs(data, a, b, rest);
  }

  /** The Secrets the API server admits: zero bytes occur in values only. */
  predicate NamesNulFree(name: string, data: map<string, string>) {
    NUL !in name && forall k :: k in data ==> NUL !in k
  }

  /** No other Secret that the API server admits has the same fingerprint. */
  ghost predicate Unmistakable(name: string, data: map<string, string>) {
    forall name', data' :: NamesNulFree(name', data') && Preimage(name', data') == Preimage(name, data) ==>
                             name' == name && data' == data
  }

  lemma SmallIsUnmistakable(name: string, data: map<string, string>, name': string, data': map<string, string>)
    requires NulFree(name, data) && |data| <= 1
    requires NamesNulFree(name', data') && Preimage(name', data') == Preimage(name, data)
    ensures name' == name && data' == data
  {
    NulsOfPreimage(name, data);
    NulsOfPreimage(name', data');
    assert |data'| == 0 ==> data' == map[];
    FingerprintIdentifies(name, data, name', data');
  }

  /** Even without any zero byte of its own, a Secret can be told from every other
      one exactly if it has at most one key. */
  lemma IdentifiedExactly(name: string, data: map<string, string>)
    requires NulFree(name, data)
    ensures Unmistakable(name, data) <==> |data| <= 1
  {
    if |data| <= 1 {
      forall name', data' | NamesNulFree(name', data') && Preimage(name', data') == Preimage(name, data)
        ensures name' == name && data' == data
      {
        SmallIsUnmistakable(name, data, name', data');
      }
    } else {
      var other := Twin(data);
      assert forall k :: k in other ==> k in data;
      assert NamesNulFree(name, other) && Preimage(name, other) == Preimage(name, data);
    }
  }
}
