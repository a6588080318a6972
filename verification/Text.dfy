/** The parts of Go's `strings` package that the operator relies on, and the
    comma-separated list codec built from them. Go strings and byte slices are
    both modelled as Dafny strings. */
module Text {

  datatype Option<+T> = None | Some(value: T)

  datatype Result<+T, +E> = Ok(value: T) | Err(error: E)

  predicate HasPrefix(s: string, prefix: string) {
    prefix <= s
  }

  predicate HasSuffix(s: string, suffix: string) {
    |suffix| <= |s| && s[|s| - |suffix|..] == suffix
  }

  function TrimPrefix(s: string, prefix: string): string {
    if HasPrefix(s, prefix) then s[|prefix|..] else s
  }

  function TrimSuffix(s: string, suffix: string): string {
    if HasSuffix(s, suffix) then s[..|s| - |suffix|] else s
  }

  /** Unicode White_Space, as `unicode.IsSpace` has it. */
  predicate IsSpace(c: char) {
    || '\U{0009}' <= c <= '\U{000D}'
    || '\U{2000}' <= c <= '\U{200A}'
    || c == '\U{0020}' || c == '\U{0085}' || c == '\U{00A0}' || c == '\U{1680}'
    || c == '\U{2028}' || c == '\U{2029}' || c == '\U{202F}' || c == '\U{205F}' || c == '\U{3000}'
  }

  /** Among the ASCII characters these six. */
  lemma AsciiSpaces(c: char)
    requires c < '\U{0080}'
    ensures IsSpace(c) <==> c in ['\t', '\n', '\U{000B}', '\U{000C}', '\r', ' ']
  {
  }

  function TrimLeft(s: string): (r: string)
    ensures |r| <= |s|
  {
    if s != "" && IsSpace(s[0]) then TrimLeft(s[1..]) else s
  }

  function TrimRight(s: string): (r: string)
    ensures |r| <= |s|
  {
    if s != "" && IsSpace(s[|s| - 1]) then TrimRight(s[..|s| - 1]) else s
  }

  function TrimSpace(s: string): string {
    TrimRight(TrimLeft(s))
  }

  /** `strings.Split(s, sep)` for a one-character separator. */
  function Split(s: string, sep: char): (parts: seq<string>)
    ensures parts != []
    ensures forall p :: p in parts ==> sep !in p
  {
    if s == "" then [""]
    else
      var rest := Split(s[1..], sep);
      if s[0] == sep then [""] + rest else [[s[0]] + rest[0]] + rest[1..]
  }

  function Join(xs: seq<string>, sep: char): string {
    if xs == [] then ""
    else if |xs| == 1 then xs[0]
    else xs[0] + [sep] + Join(xs[1..], sep)
  }

  /** The entries that survive trimming, in order. */
  function NonBlank(parts: seq<string>): seq<string> {
    if parts == [] then []
    else
      var last := TrimSpace(parts[|parts| - 1]);
      NonBlank(parts[..|parts| - 1]) + if last == "" then [] else [last]
  }

  lemma NonBlankStep(parts: seq<string>, i: nat)
    requires i < |parts|
    ensures NonBlank(parts[..i + 1]) ==
            NonBlank(parts[..i]) + if TrimSpace(parts[i]) == "" then [] else [TrimSpace(parts[i])]
  {
    assert parts[..i + 1][..i] == parts[..i];
  }

  /** What `splitAndTrim` computes. */
  function Entries(s: string): seq<string> {
    NonBlank(Split(s, ','))
  }

  method SplitAndTrim(s: string) returns (out: seq<string>)
    ensures out == Entries(s)
  {
    out := [];
    var parts := Split(s, ',');
    for i := 0 to |parts|
      invariant out == NonBlank(parts[..i])
    {
      NonBlankStep(parts, i);
      var trimmed := TrimSpace(parts[i]);
      if trimmed != "" {
        out := out + [trimmed];
      }
    }
    assert parts[..|parts|] == parts;
  }

  /** An entry that a comma-separated list can carry unchanged. */
  predicate CleanEntry(x: string) {
    x != "" && ',' !in x && Trimmed(x)
  }

  predicate Clean(xs: seq<string>) {
    forall x :: x in xs ==> CleanEntry(x)
  }

  predicate Blank(s: string) {
    forall c :: c in s ==> IsSpace(c)
  }

  predicate Trimmed(s: string) {
    s == "" || (!IsSpace(s[0]) && !IsSpace(s[|s| - 1]))
  }

  lemma {:induction false} TrimLeftSplits(s: string) returns (a: string)
    ensures s == a + TrimLeft(s) && Blank(a)
    ensures TrimLeft(s) == "" || !IsSpace(TrimLeft(s)[0])
  {
    a := "";
    if s != "" && IsSpace(s[0]) {
      a := TrimLeftSplits(s[1..]);
      assert s == [s[0]] + s[1..];
      a := [s[0]] + a;
    }
  }

  lemma {:induction false} TrimRightSplits(s: string) returns (b: string)
    ensures s == TrimRight(s) + b && Blank(b)
    ensures TrimRight(s) == "" || !IsSpace(TrimRight(s)[|TrimRight(s)| - 1])
  {
    b := "";
    if s != "" && IsSpace(s[|s| - 1]) {
      b := TrimRightSplits(s[..|s| - 1]);
      assert s == s[..|s| - 1] + [s[|s| - 1]];
      b := b + [s[|s| - 1]];
    }
  }

  /** Trimming removes white space at both ends and nothing else. */
  lemma TrimSpaceSplits(s: string) returns (a: string, b: string)
    ensures s == a + TrimSpace(s) + b && Blank(a) && Blank(b)
    ensures Trimmed(TrimSpace(s))
  {
    a := TrimLeftSplits(s);
    b := TrimRightSplits(TrimLeft(s));
    assert TrimLeft(s)[..|TrimSpace(s)|] == TrimSpace(s);
  }

  lemma TrimSpaceOfTrimmed(x: string)
    requires Trimmed(x)
    ensures TrimSpace(x) == x
  {
  }

  lemma {:induction false} BlankTrimsAway(s: string)
    ensures Blank(s) <==> TrimSpace(s) == ""
  {
    var a, b := TrimSpaceSplits(s);
    if TrimSpace(s) != "" {
      assert TrimSpace(s)[0] in s;
    }
  }

  lemma {:induction false} NonBlankIsClean(parts: seq<string>)
    requires forall p :: p in parts ==> ',' !in p
    ensures Clean(NonBlank(parts))
  {
    if parts != [] {
      NonBlankIsClean(parts[..|parts| - 1]);
      var a, b := TrimSpaceSplits(parts[|parts| - 1]);
      assert ',' !in parts[|parts| - 1];
    }
  }

  lemma {:induction false} NonBlankOfClean(xs: seq<string>)
    requires Clean(xs)
    ensures NonBlank(xs) == xs
  {
    if xs != [] {
      var n := |xs| - 1;
      assert CleanEntry(xs[n]);
      NonBlankOfClean(xs[..n]);
      NonBlankStep(xs, n);
      TrimSpaceOfTrimmed(xs[n]);
      assert xs == xs[..n + 1] == xs[..n] + [xs[n]];
    }
  }

  lemma {:induction false} SplitFirst(a: string, sep: char, b: string)
    requires sep !in a
    ensures Split(a + [sep] + b, sep) == [a] + Split(b, sep)
    ensures Split(a, sep) == [a]
  {
    if a == "" {
      assert a + [sep] + b == [sep] + b;
      assert ([sep] + b)[1..] == b;
    } else {
      SplitFirst(a[1..], sep, b);
      assert (a + [sep] + b)[1..] == a[1..] + [sep] + b;
      assert [a[0]] + a[1..] == a;
    }
  }

  lemma {:induction false} SplitOfJoin(xs: seq<string>, sep: char)
    requires xs != []
    requires forall x :: x in xs ==> sep !in x
    ensures Split(Join(xs, sep), sep) == xs
  {
    if |xs| == 1 {
      SplitFirst(xs[0], sep, "");
    } else {
      SplitFirst(xs[0], sep, Join(xs[1..], sep));
      SplitOfJoin(xs[1..], sep);
    }
  }

  /** Exactly the clean lists survive being written as one comma-separated
      string and read back. */
  lemma JoinRoundTrip(xs: seq<string>)
    ensures Entries(Join(xs, ',')) == xs <==> Clean(xs)
  {
    NonBlankIsClean(Split(Join(xs, ','), ','));
    if Clean(xs) {
      if xs == [] {
        NonBlankOfClean([]);
        assert Split("", ',') == [""];
        TrimSpaceOfTrimmed("");
        assert NonBlank([""]) == NonBlank([""][..0]) + [];
      } else {
        SplitOfJoin(xs, ',');
        NonBlankOfClean(xs);
      }
    }
  }

  /** Reading any comma-separated string gives a list that survives being
      written out and read again. */
  lemma EntriesStable(s: string)
    ensures Clean(Entries(s))
    ensures Entries(Join(Entries(s), ',')) == Entries(s)
  {
    NonBlankIsClean(Split(s, ','));
    JoinRoundTrip(Entries(s));
  }

  /** strconv.ParseBool */
  function ParseBool(s: string): Option<bool> {
    if s in ["1", "t", "T", "TRUE", "true", "True"] then Some(true)
    else if s in ["0", "f", "F", "FALSE", "false", "False"] then Some(false)
    else None
  }
}
