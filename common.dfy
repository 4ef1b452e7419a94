/** Helpers shared by several of the wizard's components: optional and
    failure-carrying values, digit handling, JavaScript's clamping `slice`,
    the "toggle membership" idiom and the "label of a value" lookup. */
module Common {

  datatype Option<+T> = None | Some(value: T)

  datatype Result<+T, +E> = Ok(value: T) | Err(error: E)

  function Min(a: int, b: int): int { if a <= b then a else b }

  /** `\d` and `[0-9]` in a JavaScript regular expression. */
  predicate IsDigit(c: char) { '0' <= c <= '9' }

  predicate AllDigits(s: string) { forall i :: 0 <= i < |s| ==> IsDigit(s[i]) }

  predicate NoDigits(s: string) { forall i :: 0 <= i < |s| ==> !IsDigit(s[i]) }

  /** A Yup `required()` string: present and not empty. */
  predicate Required(s: string) { s != "" }

  /** `s.slice(i, j)` (and `s.substring(i, j)`) for 0 <= i <= j: both bounds clamp to the length. */
  function Slice(s: string, i: nat, j: nat): (r: string)
    requires i <= j
    ensures |r| == Min(j, |s|) - Min(i, |s|)
    ensures forall k :: 0 <= k < |r| ==> r[k] == s[i + k]
  {
    s[Min(i, |s|)..Min(j, |s|)]
  }

  /** `s.replace(/\D/g, '')`: the decimal digits of `s`, in their order. */
  function KeepDigits(s: string): (r: string)
    ensures AllDigits(r)
    ensures |r| <= |s|
    ensures AllDigits(s) ==> r == s
    ensures NoDigits(s) ==> r == []
  {
    if s == [] then []
    else (if IsDigit(s[0]) then [s[0]] else []) + KeepDigits(s[1..])
  }

  /** Removing the non-digits distributes over concatenation. */
  lemma {:induction false} KeepDigitsAppend(a: string, b: string)
    ensures KeepDigits(a + b) == KeepDigits(a) + KeepDigits(b)
  {
    if a == [] {
      assert a + b == b;
    } else {
      var head := if IsDigit(a[0]) then [a[0]] else [];
      assert (a + b)[0] == a[0];
      assert (a + b)[1..] == a[1..] + b;
      assert KeepDigits(a + b) == head + KeepDigits(a[1..] + b);
      KeepDigitsAppend(a[1..], b);
      assert KeepDigits(a) == head + KeepDigits(a[1..]);
    }
  }

  /** `xs.filter(y => y !== x)`. */
  function RemoveAll(xs: seq<string>, x: string): (r: seq<string>)
    ensures x !in r
    ensures forall y :: y != x ==> (y in r <==> y in xs)
    ensures |r| <= |xs|
    ensures x in xs ==> |r| < |xs|
    ensures x !in xs ==> r == xs
  {
    if xs == [] then []
    else (if xs[0] == x then [] else [xs[0]]) + RemoveAll(xs[1..], x)
  }

  /** `xs.includes(x) ? xs.filter(y => y !== x) : [...xs, x]`: the checkbox
      idiom of the eligibility screen and of the source-of-funds list. */
  function Toggle(xs: seq<string>, x: string): (r: seq<string>)
    ensures x in r <==> x !in xs
    ensures forall y :: y != x ==> (y in r <==> y in xs)
    ensures x !in xs ==> r == xs + [x]
    ensures x in xs ==> |r| < |xs|
  {
    if x in xs then RemoveAll(xs, x) else xs + [x]
  }

  /** An option of a select list: its stored value and its display label. */
  datatype Choice = Choice(value: string, labelText: string)

  /** `options.find(o => o.value === v)?.label || v`: the label of the first
      option whose value is `v`, or `v` itself when there is none or that
      label is empty. */
  function LabelFor(options: seq<Choice>, v: string): (r: string)
    ensures (forall i :: 0 <= i < |options| ==> options[i].value != v) ==> r == v
    ensures forall i :: (0 <= i < |options| && options[i].value == v
                          && (forall j :: 0 <= j < i ==> options[j].value != v))
                          ==> r == (if options[i].labelText != "" then options[i].labelText else v)
    ensures r == v || exists i :: 0 <= i < |options| && options[i].value == v && options[i].labelText == r
  {
    if options == [] then v
    else if options[0].value == v then (if options[0].labelText != "" then options[0].labelText else v)
    else
      var r := LabelFor(options[1..], v);
      assert forall i :: 1 <= i < |options| ==> options[i] == options[1..][i - 1];
      r
  }

  /** One piece of the anchored digit patterns the forms use: `\d{n}`, `-` and `-?`. */
  datatype Token = Digits(n: nat) | Hyphen | OptHyphen

  /** Whether `s` matches the anchored pattern `^p$` (with the backtracking
      of a regular expression at each `-?`). */
  predicate Matches(p: seq<Token>, s: string)
    decreases |p|
  {
    if p == [] then s == []
    else match p[0]
      case Digits(n) => n <= |s| && AllDigits(s[..n]) && Matches(p[1..], s[n..])
      case Hyphen => |s| > 0 && s[0] == '-' && Matches(p[1..], s[1..])
      case OptHyphen => (|s| > 0 && s[0] == '-' && Matches(p[1..], s[1..])) || Matches(p[1..], s)
  }

  /** How many digits a pattern asks for. */
  function DigitCount(p: seq<Token>): nat
  {
    if p == [] then 0 else (if p[0].Digits? then p[0].n else 0) + DigitCount(p[1..])
  }

  /** A string matching a digit pattern holds exactly the digits the pattern asks for. */
  lemma {:induction false} MatchesDigitCount(p: seq<Token>, s: string)
    requires Matches(p, s)
    ensures |KeepDigits(s)| == DigitCount(p)
    decreases |p|
  {
    if p != [] {
      match p[0]
      case Digits(n) =>
        assert s == s[..n] + s[n..];
        KeepDigitsAppend(s[..n], s[n..]);
        MatchesDigitCount(p[1..], s[n..]);
      case Hyphen =>
        assert s == [s[0]] + s[1..];
        KeepDigitsAppend([s[0]], s[1..]);
        MatchesDigitCount(p[1..], s[1..]);
      case OptHyphen =>
        if |s| > 0 && s[0] == '-' && Matches(p[1..], s[1..]) {
          assert s == [s[0]] + s[1..];
          KeepDigitsAppend([s[0]], s[1..]);
          MatchesDigitCount(p[1..], s[1..]);
        } else {
          MatchesDigitCount(p[1..], s);
        }
    }
  }

  /** Matching a pattern that starts with `\d{n}` against digits followed by a rest. */
  lemma MatchesDigitsThen(n: nat, rest: seq<Token>, a: string, s: string)
    requires |a| == n && AllDigits(a) && Matches(rest, s)
    ensures Matches([Digits(n)] + rest, a + s)
  {
    assert ([Digits(n)] + rest)[1..] == rest;
    assert (a + s)[..n] == a && (a + s)[n..] == s;
  }

  /** Matching a pattern that starts with `-?` against a string that starts with `-`. */
  lemma MatchesOptHyphenThen(rest: seq<Token>, s: string)
    requires Matches(rest, s)
    ensures Matches([OptHyphen] + rest, "-" + s)
  {
    assert ([OptHyphen] + rest)[1..] == rest;
    assert ("-" + s)[1..] == s;
  }
}
