/**
 * The JavaScript built-ins the assistant relies on, over `string` (`seq<char>`):
 * `toLowerCase`/`toUpperCase` (ASCII only), `String.prototype.includes`,
 * `Number(...)` on a recognised word, and the `Result` shape used for thrown errors.
 */
module Text {

  /** A value, or the message of the error the source throws instead. */
  datatype Result<+T> = Ok(value: T) | Err(message: string) {
    predicate IsFailure() { Err? }

    function PropagateFailure<U>(): Result<U>
      requires Err?
    {
      Err(message)
    }

    function Extract(): T
      requires Ok?
    {
      value
    }
  }

  datatype Option<+T> = None | Some(value: T)

  /** What reading a property of `undefined` throws. */
  const TypeError := "TypeError"

  function LowerChar(c: char): char {
    if 'A' <= c <= 'Z' then (c as int + 32) as char else c
  }

  function UpperChar(c: char): char {
    if 'a' <= c <= 'z' then (c as int - 32) as char else c
  }

  /** `s.toLowerCase()`, restricted to ASCII letters. */
  function Lower(s: string): (r: string)
    ensures |r| == |s|
    ensures forall i :: 0 <= i < |s| ==> r[i] == LowerChar(s[i])
  {
    if s == [] then [] else [LowerChar(s[0])] + Lower(s[1..])
  }

  /** `needle` occurs in `hay` starting at offset `at`. */
  predicate OccursAt(hay: string, needle: string, at: nat) {
    at + |needle| <= |hay| && hay[at..at + |needle|] == needle
  }

  /** `hay.includes(needle)`: `needle` occurs as a contiguous substring of `hay`. */
  predicate Contains(hay: string, needle: string): (r: bool)
    ensures needle == [] ==> r
    ensures r ==> |needle| <= |hay|
  {
    assert needle == [] ==> OccursAt(hay, needle, 0);
    exists at: nat :: at <= |hay| && OccursAt(hay, needle, at)
  }

  /** Every occurrence sits at some offset. */
  lemma ContainsWitness(hay: string, needle: string) returns (at: nat)
    requires Contains(hay, needle)
    ensures OccursAt(hay, needle, at)
  {
    at :| at <= |hay| && OccursAt(hay, needle, at);
  }

  /** A string contains itself. */
  lemma ContainsSelf(s: string)
    ensures Contains(s, s)
  {
    assert OccursAt(s, s, 0);
  }

  /** A string contains anything placed between two strings. */
  lemma ContainsInfix(front: string, needle: string, back: string)
    ensures Contains(front + needle + back, needle)
  {
    assert OccursAt(front + needle + back, needle, |front|);
  }

  /** `needle` is a slice `hay[i..j]` of `hay`. */
  predicate IsInfix(needle: string, hay: string) {
    exists i, j :: 0 <= i <= j <= |hay| && hay[i..j] == needle
  }

  /** `includes` is exactly "is a slice of": both directions. */
  lemma ContainsIffInfix(hay: string, needle: string)
    ensures Contains(hay, needle) <==> IsInfix(needle, hay)
  {
    if Contains(hay, needle) {
      var at := ContainsWitness(hay, needle);
      assert hay[at..at + |needle|] == needle;
    }
    if IsInfix(needle, hay) {
      var i, j :| 0 <= i <= j <= |hay| && hay[i..j] == needle;
      assert OccursAt(hay, needle, i);
    }
  }

  /** A needle holding a character the haystack lacks never occurs in it. */
  lemma MissingCharNotContained(hay: string, needle: string, c: char)
    requires c in needle && c !in hay
    ensures !Contains(hay, needle)
  {
    if Contains(hay, needle) {
      var at := ContainsWitness(hay, needle);
    }
  }

  /**
   * `Object.keys(table).find(k => table[k].includes(v))` and its relatives: the
   * position of the first alias string, in declaration order, that contains `v`.
   */
  function FindAlias(aliases: seq<string>, v: string): (r: Option<nat>)
    ensures r.None? <==> forall i :: 0 <= i < |aliases| ==> !Contains(aliases[i], v)
    ensures r.Some? ==> r.value < |aliases| && Contains(aliases[r.value], v)
    ensures r.Some? ==> forall i :: 0 <= i < r.value ==> !Contains(aliases[i], v)
  {
    if aliases == [] then None
    else if Contains(aliases[0], v) then Some(0)
    else match FindAlias(aliases[1..], v)
      case None => None
      case Some(i) => Some(i + 1)
  }

  function DigitValue(c: char): nat {
    if '0' <= c <= '9' then c as int - '0' as int else 0
  }

  predicate AllDigits(s: string) {
    forall i :: 0 <= i < |s| ==> '0' <= s[i] <= '9'
  }

  /** The decimal value of a string of digits. */
  function DecimalValue(s: string): (n: nat)
    decreases |s|
  {
    if s == [] then 0 else DecimalValue(s[..|s| - 1]) * 10 + DigitValue(s[|s| - 1])
  }

  /**
   * `Number(s)` for the words the recogniser gives as indices: the empty string is 0,
   * a run of decimal digits is its value, and anything else is `None` (NaN, or a
   * numeral syntax this model does not read).
   */
  function ToNumber(s: string): (r: Option<int>)
    ensures s == [] ==> r == Some(0)
    ensures r.Some? && s != [] ==> AllDigits(s) && r.value >= 0
    ensures AllDigits(s) ==> r == Some(DecimalValue(s))
  {
    if AllDigits(s) then Some(DecimalValue(s)) else None
  }
}
