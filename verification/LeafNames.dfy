/** Leaf labels: the regular expression that admits them, their normal form, and the full
    name that is hashed. */
module LeafNames {
  import opened Wrappers

  // ----- Regular expressions over a text -----

  /** A class is a list of character ranges. */
  datatype Regex =
    | Begin
    | End
    | Chars(ranges: seq<(char, char)>)
    | Then(first: Regex, second: Regex)
    | Or(left: Regex, right: Regex)
    | Repeat(body: Regex, lo: nat, hi: nat)

  predicate InRanges(ranges: seq<(char, char)>, c: char) {
    exists r | r in ranges :: r.0 <= c <= r.1
  }

  /** The expression matches the text from position `i` up to position `j`. */
  ghost predicate Matches(e: Regex, s: string, i: nat, j: nat)
    decreases e, 0
  {
    i <= j <= |s| &&
    match e
    case Begin => i == j == 0
    case End => i == j == |s|
    case Chars(ranges) => j == i + 1 && InRanges(ranges, s[i])
    case Then(first, second) => exists k: nat :: Matches(first, s, i, k) && Matches(second, s, k, j)
    case Or(left, right) => Matches(left, s, i, j) || Matches(right, s, i, j)
    case Repeat(body, lo, hi) => MatchesRepeat(body, lo, hi, s, i, j)
  }

  ghost predicate MatchesRepeat(body: Regex, lo: nat, hi: nat, s: string, i: nat, j: nat)
    decreases body, 1 + hi
  {
    || (lo == 0 && i == j <= |s|)
    || (hi > 0 && exists k: nat ::
          Matches(body, s, i, k) && MatchesRepeat(body, if lo == 0 then 0 else lo - 1, hi - 1, s, k, j))
  }

  /** `MatchString` looks for a match anywhere. */
  ghost predicate MatchString(e: Regex, s: string) {
    exists i: nat, j: nat :: Matches(e, s, i, j)
  }

  const ALNUM := Chars([('a', 'z'), ('0', '9')])
  const ALNUM_OR_HYPHEN := Chars([('a', 'z'), ('0', '9'), ('-', '-')])

  const MIDDLE := Repeat(ALNUM_OR_HYPHEN, 0, 61)
  const LAST := Then(ALNUM, End)
  const LONG_LABEL := Then(Begin, Then(ALNUM, Then(MIDDLE, LAST)))
  const SHORT_LABEL := Then(Begin, LAST)
  const LEAF_NAME := Or(LONG_LABEL, SHORT_LABEL)

  // ----- The labels it admits -----

  predicate IsAlnum(c: char) {
    'a' <= c <= 'z' || '0' <= c <= '9'
  }

  /** 1 to 63 letters, digits and hyphens, with no hyphen at either end. */
  predicate IsLabel(s: string) {
    && 1 <= |s| <= 63
    && (forall k | 0 <= k < |s| :: IsAlnum(s[k]) || s[k] == '-')
    && s[0] != '-' && s[|s| - 1] != '-'
  }

  lemma ClassChars(c: char)
    ensures InRanges(ALNUM.ranges, c) <==> IsAlnum(c)
    ensures InRanges(ALNUM_OR_HYPHEN.ranges, c) <==> IsAlnum(c) || c == '-'
  {
    var (a, h) := (ALNUM.ranges, ALNUM_OR_HYPHEN.ranges);
    assert a[0] == ('a', 'z') && a[1] == ('0', '9');
    assert h[0] == ('a', 'z') && h[1] == ('0', '9') && h[2] == ('-', '-');
  }

  predicate AllIn(ranges: seq<(char, char)>, s: string, i: nat, j: nat)
    requires j <= |s|
  {
    forall k | i <= k < j :: InRanges(ranges, s[k])
  }

  /** A bounded repetition of a class is a count and a class. */
  lemma {:induction false} RepeatOfClass(ranges: seq<(char, char)>, lo: nat, hi: nat, s: string, i: nat, j: nat)
    ensures MatchesRepeat(Chars(ranges), lo, hi, s, i, j)
      <==> (i <= j <= |s| && lo <= j - i <= hi && AllIn(ranges, s, i, j)) || (lo == 0 && i == j <= |s|)
    decreases hi
  {
    var lo' := if lo == 0 then 0 else lo - 1;
    if hi == 0 {
    } else {
      RepeatOfClass(ranges, lo', hi - 1, s, i + 1, j);
      if i < j <= |s| && lo <= j - i <= hi && AllIn(ranges, s, i, j) {
        assert InRanges(ranges, s[i]);
        assert Matches(Chars(ranges), s, i, i + 1) && MatchesRepeat(Chars(ranges), lo', hi - 1, s, i + 1, j);
      }
      forall k: nat | Matches(Chars(ranges), s, i, k) ensures k == i + 1 {
      }
    }
  }

  // One lemma for each way to take a match apart or to put one together.

  lemma Part(first: Regex, second: Regex, s: string, i: nat, j: nat) returns (k: nat)
    requires Matches(Then(first, second), s, i, j)
    ensures Matches(first, s, i, k) && Matches(second, s, k, j)
  {
    k :| Matches(first, s, i, k) && Matches(second, s, k, j);
  }

  lemma Join(first: Regex, second: Regex, s: string, i: nat, k: nat, j: nat)
    requires Matches(first, s, i, k) && Matches(second, s, k, j) && i <= j <= |s|
    ensures Matches(Then(first, second), s, i, j)
  {
  }

  lemma OneChar(ranges: seq<(char, char)>, s: string, i: nat, j: nat)
    ensures Matches(Chars(ranges), s, i, j) <==> j == i + 1 <= |s| && InRanges(ranges, s[i])
  {
  }

  lemma Ends(s: string, i: nat, j: nat)
    ensures Matches(Begin, s, i, j) <==> i == j == 0
    ensures Matches(End, s, i, j) <==> i == j == |s|
  {
  }

  lemma ManyChars(ranges: seq<(char, char)>, hi: nat, s: string, i: nat, j: nat)
    ensures Matches(Repeat(Chars(ranges), 0, hi), s, i, j) <==> i <= j <= |s| && j - i <= hi && AllIn(ranges, s, i, j)
  {
    RepeatOfClass(ranges, 0, hi, s, i, j);
  }

  lemma ShortLabel(s: string)
    ensures MatchString(SHORT_LABEL, s) <==> |s| == 1 && IsAlnum(s[0])
  {
    hide Matches, MatchesRepeat, InRanges;
    if |s| == 1 && IsAlnum(s[0]) {
      ClassChars(s[0]);
      OneChar(ALNUM.ranges, s, 0, 1);
      Ends(s, 0, 0);
      Ends(s, 1, 1);
      Join(ALNUM, End, s, 0, 1, 1);
      Join(Begin, Then(ALNUM, End), s, 0, 0, 1);
    }
    if MatchString(SHORT_LABEL, s) {
      var i: nat, j: nat :| Matches(SHORT_LABEL, s, i, j);
      var k := Part(Begin, Then(ALNUM, End), s, i, j);
      var m := Part(ALNUM, End, s, k, j);
      Ends(s, i, k);
      Ends(s, m, j);
      OneChar(ALNUM.ranges, s, k, m);
      ClassChars(s[0]);
    }
  }

  lemma LongLabelMatches(s: string)
    requires IsLabel(s) && |s| >= 2
    ensures MatchString(LONG_LABEL, s)
  {
    hide Matches, MatchesRepeat, InRanges;
    var n := |s|;
    forall k | 0 <= k < n ensures InRanges(ALNUM_OR_HYPHEN.ranges, s[k]) {
      ClassChars(s[k]);
    }
    ClassChars(s[0]);
    ClassChars(s[n - 1]);
    ManyChars(ALNUM_OR_HYPHEN.ranges, 61, s, 1, n - 1);
    OneChar(ALNUM.ranges, s, 0, 1);
    OneChar(ALNUM.ranges, s, n - 1, n);
    Ends(s, 0, 0);
    Ends(s, n, n);
    Join(ALNUM, End, s, n - 1, n, n);
    Join(MIDDLE, LAST, s, 1, n - 1, n);
    Join(ALNUM, Then(MIDDLE, LAST), s, 0, 1, n);
    Join(Begin, Then(ALNUM, Then(MIDDLE, LAST)), s, 0, 0, n);
  }

  lemma LongLabelOnly(s: string)
    requires MatchString(LONG_LABEL, s)
    ensures IsLabel(s) && |s| >= 2
  {
    hide Matches, MatchesRepeat, InRanges;
    var i: nat, j: nat :| Matches(LONG_LABEL, s, i, j);
    var a := Part(Begin, Then(ALNUM, Then(MIDDLE, LAST)), s, i, j);
    var b := Part(ALNUM, Then(MIDDLE, LAST), s, a, j);
    var c := Part(MIDDLE, LAST, s, b, j);
    var d := Part(ALNUM, End, s, c, j);
    Ends(s, i, a);
    Ends(s, d, j);
    OneChar(ALNUM.ranges, s, a, b);
    ManyChars(ALNUM_OR_HYPHEN.ranges, 61, s, b, c);
    OneChar(ALNUM.ranges, s, c, d);
    ClassChars(s[0]);
    ClassChars(s[c]);
    forall k | 0 <= k < |s| ensures IsAlnum(s[k]) || s[k] == '-' {
      ClassChars(s[k]);
    }
  }

  /** The recogniser admits exactly the labels. */
  lemma RecognisesLabels(s: string)
    ensures MatchString(LEAF_NAME, s) <==> IsLabel(s)
  {
    ShortLabel(s);
    if MatchString(LEAF_NAME, s) {
      var i: nat, j: nat :| Matches(LEAF_NAME, s, i, j);
      assert Matches(LONG_LABEL, s, i, j) || Matches(SHORT_LABEL, s, i, j);
      if Matches(LONG_LABEL, s, i, j) {
        LongLabelOnly(s);
      }
    }
    if IsLabel(s) {
      if |s| >= 2 {
        LongLabelMatches(s);
        var i: nat, j: nat :| Matches(LONG_LABEL, s, i, j);
        assert Matches(LEAF_NAME, s, i, j);
      } else {
        var i: nat, j: nat :| Matches(SHORT_LABEL, s, i, j);
        assert Matches(LEAF_NAME, s, i, j);
      }
    }
  }

  // ----- Normal form -----

  /** The Unicode tables behind `TrimSpace` and `ToLower`. */
  datatype Unicode = Unicode(isSpace: char -> bool, toLower: char -> char)
  {
    /** On ASCII they are the usual ones; lowering twice is lowering once, and it makes no
        space of anything else. */
    ghost predicate Sound() {
      && (forall c: char | c < 128 as char :: isSpace(c) <==> c == ' ' || 9 as char <= c <= 13 as char)
      && (forall c: char | c < 128 as char :: toLower(c) == if 'A' <= c <= 'Z' then c + 32 as char else c)
      && (forall c: char :: toLower(toLower(c)) == toLower(c))
      && (forall c: char :: isSpace(toLower(c)) ==> isSpace(c))
    }
  }

  /** The tables that know ASCII only. */
  function AsciiTables(): Unicode {
    Unicode((c: char) => c == ' ' || 9 as char <= c <= 13 as char,
            (c: char) => if 'A' <= c <= 'Z' then c + 32 as char else c)
  }

  lemma AsciiIsSound()
    ensures AsciiTables().Sound()
  {
  }

  function ToLower(u: Unicode, s: string): string {
    seq(|s|, k requires 0 <= k < |s| => u.toLower(s[k]))
  }

  function TrimLeft(u: Unicode, s: string): string {
    if s != [] && u.isSpace(s[0]) then TrimLeft(u, s[1..]) else s
  }

  function TrimRight(u: Unicode, s: string): string {
    if s != [] && u.isSpace(s[|s| - 1]) then TrimRight(u, s[..|s| - 1]) else s
  }

  function TrimSpace(u: Unicode, s: string): string {
    TrimRight(u, TrimLeft(u, s))
  }

  function Normalise(u: Unicode, input: string): string {
    ToLower(u, TrimSpace(u, input))
  }

  predicate Trimmed(u: Unicode, s: string) {
    s != [] ==> !u.isSpace(s[0]) && !u.isSpace(s[|s| - 1])
  }

  lemma {:induction false} TrimLeftStops(u: Unicode, s: string)
    ensures TrimLeft(u, s) != [] ==> !u.isSpace(TrimLeft(u, s)[0])
    decreases |s|
  {
    if s == [] || !u.isSpace(s[0]) {
    } else {
      TrimLeftStops(u, s[1..]);
    }
  }

  lemma {:induction false} TrimRightStops(u: Unicode, s: string)
    requires s != [] ==> !u.isSpace(s[0])
    ensures Trimmed(u, TrimRight(u, s))
    decreases |s|
  {
    if s == [] || !u.isSpace(s[|s| - 1]) {
    } else {
      TrimRightStops(u, s[..|s| - 1]);
    }
  }

  lemma TrimSpaceTrims(u: Unicode, s: string)
    ensures Trimmed(u, TrimSpace(u, s))
    ensures Trimmed(u, s) ==> TrimSpace(u, s) == s
  {
    TrimLeftStops(u, s);
    TrimRightStops(u, TrimLeft(u, s));
  }

  predicate AllSpace(u: Unicode, s: string) {
    forall k | 0 <= k < |s| :: u.isSpace(s[k])
  }

  /** Trimming takes exactly the spaces around. */
  lemma {:induction false} TrimSpaceExact(u: Unicode, before: string, middle: string, after: string)
    requires AllSpace(u, before) && AllSpace(u, after)
    requires middle != [] ==> !u.isSpace(middle[0]) && !u.isSpace(middle[|middle| - 1])
    ensures TrimSpace(u, before + middle + after) == middle
    decreases |before| + |after|
  {
    var s := before + middle + after;
    if before != [] {
      assert s[1..] == before[1..] + middle + after;
      TrimSpaceExact(u, before[1..], middle, after);
    } else if middle == [] && after != [] {
      assert s == after && s[1..] == [] + middle + after[1..];
      TrimSpaceExact(u, [], middle, after[1..]);
    } else if after != [] {
      var t := middle + after[..|after| - 1];
      assert s[..|s| - 1] == t && s == middle + after;
      assert t == [] + middle + after[..|after| - 1];
      TrimSpaceExact(u, [], middle, after[..|after| - 1]);
    } else {
      assert s == middle;
    }
  }

  /** Capital letters become small ones, and other ASCII characters stay. */
  lemma ToLowerExact(u: Unicode, s: string, k: nat)
    requires u.Sound() && k < |s| && (s[k] as int) < 128
    ensures |ToLower(u, s)| == |s|
    ensures ToLower(u, s)[k] as int == s[k] as int + if 'A' <= s[k] <= 'Z' then 32 else 0
  {
  }

  /** The normal form is the lowered text without the spaces around it. */
  lemma NormaliseExact(u: Unicode, before: string, middle: string, after: string)
    requires u.Sound() && AllSpace(u, before) && AllSpace(u, after)
    requires middle != [] ==> !u.isSpace(middle[0]) && !u.isSpace(middle[|middle| - 1])
    ensures var n := Normalise(u, before + middle + after);
      && |n| == |middle|
      && forall k | 0 <= k < |middle| && (middle[k] as int) < 128 ::
          n[k] as int == middle[k] as int + if 'A' <= middle[k] <= 'Z' then 32 else 0
  {
    TrimSpaceExact(u, before, middle, after);
    forall k | 0 <= k < |middle| && (middle[k] as int) < 128
      ensures ToLower(u, middle)[k] as int == middle[k] as int + if 'A' <= middle[k] <= 'Z' then 32 else 0
    {
      ToLowerExact(u, middle, k);
    }
  }

  lemma ToLowerKeepsTrimmed(u: Unicode, s: string)
    requires u.Sound() && Trimmed(u, s)
    ensures Trimmed(u, ToLower(u, s)) && ToLower(u, ToLower(u, s)) == ToLower(u, s)
  {
  }

  /** Normalising twice is normalising once. */
  lemma NormaliseTwice(u: Unicode, input: string)
    requires u.Sound()
    ensures Normalise(u, Normalise(u, input)) == Normalise(u, input)
  {
    TrimSpaceTrims(u, input);
    ToLowerKeepsTrimmed(u, TrimSpace(u, input));
    TrimSpaceTrims(u, Normalise(u, input));
  }

  lemma LabelIsNormal(u: Unicode, s: string)
    requires u.Sound() && IsLabel(s)
    ensures Normalise(u, s) == s
  {
    TrimSpaceTrims(u, s);
  }

  // ----- Full names -----

  function FullName(leaf: string, parent: string): string {
    leaf + "." + parent
  }

  function IndexOfDot(s: string): (i: nat)
    ensures i <= |s| && (i < |s| ==> s[i] == '.')
    ensures forall k | 0 <= k < i :: s[k] != '.'
  {
    if s == [] || s[0] == '.' then 0 else 1 + IndexOfDot(s[1..])
  }

  /** The parts before and after the first dot. */
  function SplitAtDot(s: string): Option<(string, string)> {
    var i := IndexOfDot(s);
    if i < |s| then Some((s[..i], s[i + 1..])) else None
  }

  /** Splitting undoes joining exactly if the leaf holds no dot. */
  lemma SplitFullName(leaf: string, parent: string)
    ensures SplitAtDot(FullName(leaf, parent)) == Some((leaf, parent)) <==> '.' !in leaf
  {
    var full := FullName(leaf, parent);
    var i := IndexOfDot(full);
    assert full[|leaf|] == '.';
    assert forall k | 0 <= k < |leaf| :: full[k] == leaf[k];
    assert full[..|leaf|] == leaf && full[|leaf| + 1..] == parent;
    assert i < |leaf| ==> leaf[i] == '.';
  }

  /** What is hashed determines an accepted leaf and its parent. */
  lemma FullNameInjective(a: string, p: string, b: string, q: string)
    requires IsLabel(a) && IsLabel(b) && FullName(a, p) == FullName(b, q)
    ensures a == b && p == q
  {
    assert '.' !in a && '.' !in b;
    SplitFullName(a, p);
    SplitFullName(b, q);
  }

  // ----- Registration -----

  /** A digest, one for each text. */
  datatype Hash = Sha256Hex(text: string)

  datatype Error = NameInvalid | ParentInvalid | NoWalletBound | AvsUnauthorized | Internal

  datatype Task = Task(userId: string, payloadHash: Hash, nonce: string, expiresAt: int)

  /** An answer of the signer set; `authorized` tells its status. */
  datatype Avs = Avs(authorized: bool, nonce: string, expiresAtMs: nat)

  type Tasks = map<nat, Task>

  predicate NonceFree(tasks: Tasks, nonce: string) {
    forall id | id in tasks :: tasks[id].nonce != nonce
  }

  class Service {
    var tasks: Tasks

    constructor ()
      ensures tasks == map[]
    {
      tasks := map[];
    }

    /** The refusals come in this order; a registered task holds the hash of the one full
        name, under a fresh id and nonce. The lookups and the signer set are parameters. */
    method RegisterLeaf(u: Unicode, id: nat, userId: string, leafInput: string, parentInput: string,
        wallet: Result<Option<string>, Error>, avs: Option<Avs>, reply: Reply)
      returns (r: Result<nat, Error>)
      modifies this
      ensures !IsLabel(Normalise(u, leafInput)) ==> r == Err(NameInvalid)
      ensures IsLabel(Normalise(u, leafInput)) && TrimSpace(u, parentInput) == "" ==> r == Err(ParentInvalid)
      ensures IsLabel(Normalise(u, leafInput)) && TrimSpace(u, parentInput) != "" ==>
        r == if wallet.Err? then Err(Internal)
             else if wallet.value.None? then Err(NoWalletBound)
             else if avs.None? || !avs.value.authorized then Err(AvsUnauthorized)
             else if id in old(tasks) || (exists t :: t in old(tasks) && old(tasks)[t].nonce == avs.value.nonce)
               || reply != Done then Err(Internal)
             else Ok(id)
      ensures reply == Refused || (r.Err? && r.error != Internal) ==> tasks == old(tasks)
      ensures r.Err? && r.error != Internal ==> tasks == old(tasks)
      ensures id in tasks && id !in old(tasks) ==> avs.Some?
      ensures id in tasks && id !in old(tasks) ==> tasks == old(tasks)[id :=
        Task(userId, Sha256Hex(FullName(Normalise(u, leafInput), TrimSpace(u, parentInput))),
             avs.value.nonce, avs.value.expiresAtMs / 1000)]
      ensures id in old(tasks) || id !in tasks ==> tasks == old(tasks)
      ensures r.Ok? ==> id in tasks
    {
      var leafName := Normalise(u, leafInput);
      var parentName := TrimSpace(u, parentInput);
      if !IsLabel(leafName) {
        return Err(NameInvalid);
      }
      if parentName == "" {
        return Err(ParentInvalid);
      }
      if wallet.Err? {
        return Err(Internal);
      }
      if wallet.value.None? {
        return Err(NoWalletBound);
      }
      var fullName := FullName(leafName, parentName);
      if avs.None? || !avs.value.authorized {
        return Err(AvsUnauthorized);
      }
      var task := Task(userId, Sha256Hex(fullName), avs.value.nonce, avs.value.expiresAtMs / 1000);
      if id in tasks || !NonceFree(tasks, task.nonce) || reply == Refused {
        return Err(Internal);
      }
      tasks := tasks[id := task];
      if reply == Lost {
        return Err(Internal);
      }
      return Ok(id);
    }
  }
}
