/** Small value types and text helpers shared by the other modules. */
module Common {

  datatype Option<+T> = None | Some(value: T) {
    function GetOr(default: T): T {
      match this
      case Some(v) => v
      case None => default
    }
  }

  datatype Result<+T, +E> = Ok(value: T) | Err(error: E)

  function Max(a: int, b: int): int {
    if a < b then b else a
  }

  function Min(a: int, b: int): int {
    if a < b then a else b
  }

  function Abs(a: int): nat {
    if a < 0 then -a else a
  }

  /** A price that was there is still there and has not gone down. */
  predicate AtLeast(before: Option<int>, after: Option<int>) {
    before.Some? ==> after.Some? && before.value <= after.value
  }

  // ---------------------------------------------------------------- text

  function UpperChar(c: char): (u: char)
    ensures 'a' <= c <= 'z' ==> 'A' <= u <= 'Z' && u as int + 32 == c as int
    ensures !('a' <= c <= 'z') ==> u == c
  {
    if 'a' <= c <= 'z' then (c as int - 'a' as int + 'A' as int) as char else c
  }

  /** ASCII upper case, letter by letter. */
  function Upper(s: string): (u: string)
    ensures |u| == |s|
    ensures forall i :: 0 <= i < |s| ==> u[i] == UpperChar(s[i])
  {
    seq(|s|, i requires 0 <= i < |s| => UpperChar(s[i]))
  }

  lemma UpperIdempotent(s: string)
    ensures Upper(Upper(s)) == Upper(s)
  {
  }

  predicate IsBlank(c: char) {
    c == ' ' || c == '\t' || c == '\n' || c == '\r'
  }

  function StripLeft(s: string): (r: string) {
    if s != [] && IsBlank(s[0]) then StripLeft(s[1..]) else s
  }

  function StripRight(s: string): (r: string) {
    if s != [] && IsBlank(s[|s| - 1]) then StripRight(s[..|s| - 1]) else s
  }

  function Strip(s: string): (r: string) {
    StripRight(StripLeft(s))
  }

  lemma StripKeepsTight(s: string)
    requires s != [] && !IsBlank(s[0]) && !IsBlank(s[|s| - 1])
    ensures Strip(s) == s
  {
  }

  /** Stripping takes blanks off both ends, all of them, and nothing else. */
  lemma StripMeans(s: string) returns (i: nat, j: nat)
    ensures i <= j <= |s| && Strip(s) == s[i..j]
    ensures forall k :: 0 <= k < i || j <= k < |s| ==> s[k] in " \t\n\r"
    ensures i < j ==> s[i] !in " \t\n\r" && s[j - 1] !in " \t\n\r"
  {
    i := LeftEdge(s);
    var n := RightEdge(s[i..]);
    j := i + n;
    assert s[i..][..n] == s[i..j];
    forall k | j <= k < |s| ensures s[k] in " \t\n\r" {
      assert s[k] == s[i..][k - i];
    }
  }

  lemma {:induction false} LeftEdge(s: string) returns (i: nat)
    ensures i <= |s| && StripLeft(s) == s[i..]
    ensures forall k :: 0 <= k < i ==> s[k] in " \t\n\r"
    ensures i < |s| ==> s[i] !in " \t\n\r"
  {
    i := 0;
    if s != [] && IsBlank(s[0]) {
      var n := LeftEdge(s[1..]);
      i := n + 1;
      assert s[1..][n..] == s[i..];
      assert forall k :: 0 < k < i ==> s[k] == s[1..][k - 1];
    }
  }

  lemma {:induction false} RightEdge(s: string) returns (j: nat)
    ensures j <= |s| && StripRight(s) == s[..j]
    ensures forall k :: j <= k < |s| ==> s[k] in " \t\n\r"
    ensures j > 0 ==> s[j - 1] !in " \t\n\r"
  {
    j := |s|;
    if s != [] && IsBlank(s[|s| - 1]) {
      var init := s[..|s| - 1];
      j := RightEdge(init);
      assert init[..j] == s[..j];
      assert forall k :: j <= k < |init| ==> s[k] == init[k];
    }
  }

  /** The usable text of one optional identifier: none when absent or blank. */
  function CleanKey(value: Option<string>): set<string> {
    if value.None? || Strip(value.value) == [] then {} else {Strip(value.value)}
  }

  /** The keys under which an order may be known: its own id, the broker's id, the broker's permanent id. */
  function CleanKeys(a: Option<string>, b: Option<string>, c: Option<string>): set<string> {
    CleanKey(a) + CleanKey(b) + CleanKey(c)
  }

  /** Two orders are known under a common id: some id of each, blanks at the ends ignored, and not blank. */
  ghost predicate ShareId(a: seq<Option<string>>, b: seq<Option<string>>) {
    exists i, j :: 0 <= i < |a| && 0 <= j < |b| && a[i].Some? && b[j].Some?
                   && Strip(a[i].value) == Strip(b[j].value) && Strip(a[i].value) != ""
  }

  /** A clean key is the text of one of the ids. */
  ghost predicate IsIdText(ids: seq<Option<string>>, key: string) {
    key != "" && exists i :: 0 <= i < |ids| && ids[i].Some? && Strip(ids[i].value) == key
  }

  lemma KeysAreTexts(a: Option<string>, b: Option<string>, c: Option<string>, key: string)
    ensures key in CleanKeys(a, b, c) <==> IsIdText([a, b, c], key)
  {
    hide Strip;
    var ids := [a, b, c];
    assert ids[0] == a && ids[1] == b && ids[2] == c;
  }

  lemma DisjointMeansNoMeet<T>(a: set<T>, b: set<T>)
    ensures a !! b <==> a * b == {}
  {
    assert a * b == {} ==> forall x :: x in a && x in b ==> x in a * b;
  }

  /** Clean keys meet exactly when an id is shared. */
  lemma KeysMeetExactly(a: Option<string>, b: Option<string>, c: Option<string>,
                        d: Option<string>, e: Option<string>, f: Option<string>)
    ensures CleanKeys(a, b, c) !! CleanKeys(d, e, f) <==> !ShareId([a, b, c], [d, e, f])
  {
    hide CleanKeys, Strip;
    var x, y := [a, b, c], [d, e, f];
    if key :| key in CleanKeys(a, b, c) && key in CleanKeys(d, e, f) {
      KeysAreTexts(a, b, c, key);
      KeysAreTexts(d, e, f, key);
    }
    if i, j :| 0 <= i < |x| && 0 <= j < |y| && x[i].Some? && y[j].Some? && Strip(x[i].value) == Strip(y[j].value)
               && Strip(x[i].value) != "" {
      KeysAreTexts(a, b, c, Strip(x[i].value));
      KeysAreTexts(d, e, f, Strip(x[i].value));
      assert IsIdText(x, Strip(x[i].value)) && IsIdText(y, Strip(x[i].value));
    }
  }

  // ------------------------------------------------------- decimal numerals

  function Digit(d: nat): char
    requires d < 10
  {
    ('0' as int + d) as char
  }

  /** Decimal text of a number. */
  function Decimal(n: nat): (s: string)
    ensures s != []
    ensures forall i :: 0 <= i < |s| ==> '0' <= s[i] <= '9'
  {
    if n < 10 then [Digit(n)] else Decimal(n / 10) + [Digit(n % 10)]
  }

  lemma {:induction false} DecimalInjective(a: nat, b: nat)
    requires Decimal(a) == Decimal(b)
    ensures a == b
    decreases a
  {
    var s, t := Decimal(a), Decimal(b);
    assert s[|s| - 1] == t[|t| - 1];
    assert a % 10 == b % 10;
    if a >= 10 && b >= 10 {
      assert s[..|s| - 1] == Decimal(a / 10) && t[..|t| - 1] == Decimal(b / 10);
      DecimalInjective(a / 10, b / 10);
    }
  }
}
