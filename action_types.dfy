/** The action types Redux reserves for itself (`src/utils/actionTypes.ts`).
    Each one is a fixed prefix followed by a suffix made from a random base-36
    number. `Math.random()` and `Number.prototype.toString(36)` are not part of
    this model: their text is a parameter of every function here. */
module ActionTypes {

  const InitPrefix := "@@redux/INIT"
  const ReplacePrefix := "@@redux/REPLACE"
  const ProbePrefix := "@@redux/PROBE_UNKNOWN_ACTION"

  /** `text.substring(7)`: the characters from index 7 on, or the empty
      string when the text is not longer than that. */
  function SkipSeven(text: string): (r: string)
    ensures |text| <= 7 ==> r == []
    ensures |text| > 7 ==> |r| == |text| - 7 && forall i :: 0 <= i < |r| ==> r[i] == text[i + 7]
  {
    if |text| <= 7 then [] else text[7..]
  }

  /** `digits.split('').join('.')`: the characters of `digits` with a dot
      between each neighbouring pair, so one dot fewer than characters. */
  function JoinWithDots(digits: string): (joined: string)
    ensures |joined| == if digits == [] then 0 else 2 * |digits| - 1
  {
    if |digits| <= 1 then digits else [digits[0], '.'] + JoinWithDots(digits[1..])
  }

  /** `randomString()`, given the text `Math.random().toString(36)` produced. */
  function RandomString(base36: string): (r: string)
    ensures EvenPositions(r) == SkipSeven(base36)
    ensures |r| == if |base36| <= 7 then 0 else 2 * (|base36| - 7) - 1
  {
    SplitJoin(SkipSeven(base36));
    JoinWithDots(SkipSeven(base36))
  }

  /** `ActionTypes.INIT`. */
  function Init(base36: string): (r: string)
    ensures InitPrefix <= r && EvenPositions(r[|InitPrefix|..]) == SkipSeven(base36)
  {
    InitPrefix + RandomString(base36)
  }

  /** `ActionTypes.REPLACE`. */
  function Replace(base36: string): (r: string)
    ensures ReplacePrefix <= r && EvenPositions(r[|ReplacePrefix|..]) == SkipSeven(base36)
  {
    ReplacePrefix + RandomString(base36)
  }

  /** One call of `ActionTypes.PROBE_UNKNOWN_ACTION()`; each call draws a fresh
      `base36` text. */
  function ProbeUnknownAction(base36: string): (r: string)
    ensures ProbePrefix <= r && EvenPositions(r[|ProbePrefix|..]) == SkipSeven(base36)
  {
    ProbePrefix + RandomString(base36)
  }

  /** The `ActionTypes` object: two strings fixed when the module is loaded and
      one generator. */
  datatype ReservedTypes = ReservedTypes(
    init: string,
    replace: string,
    probeUnknownAction: string -> string)

  /** Builds `ActionTypes` from the two random texts drawn at load time. */
  function MakeActionTypes(initText: string, replaceText: string): (t: ReservedTypes)
    ensures InitPrefix <= t.init && t.init[|InitPrefix|..] == RandomString(initText)
    ensures ReplacePrefix <= t.replace && t.replace[|ReplacePrefix|..] == RandomString(replaceText)
    ensures forall text ::
              && ProbePrefix <= t.probeUnknownAction(text)
              && t.probeUnknownAction(text)[|ProbePrefix|..] == RandomString(text)
  {
    ReservedTypes(Init(initText), Replace(replaceText), ProbeUnknownAction)
  }

  /** The characters at even positions of `s`: what `split('.')` recovers from
      a dot-joined string of single characters that are not dots themselves
      (base-36 digits never are). */
  function EvenPositions(s: string): string
  {
    if |s| <= 2 then (if s == [] then [] else [s[0]]) else [s[0]] + EvenPositions(s[2..])
  }

  /** `s` with every `'.'` removed. */
  function RemoveDots(s: string): string
  {
    if s == [] then [] else (if s[0] == '.' then [] else [s[0]]) + RemoveDots(s[1..])
  }

  /** The `7.u.a.7.n.p` shape: even positions hold the digits in order, odd
      positions hold dots. */
  lemma {:induction false} JoinWithDotsLayout(digits: string, i: nat)
    requires i < |JoinWithDots(digits)|
    ensures i % 2 == 0 ==> i / 2 < |digits| && JoinWithDots(digits)[i] == digits[i / 2]
    ensures i % 2 == 1 ==> JoinWithDots(digits)[i] == '.'
  {
    if |digits| > 1 && i >= 2 {
      JoinWithDotsLayout(digits[1..], i - 2);
    }
  }

  /** Splitting the joined string again gives back the digits: the even
      positions always hold them, and they are what `split('.')` returns when
      no digit is a dot. */
  lemma {:induction false} SplitJoin(digits: string)
    ensures EvenPositions(JoinWithDots(digits)) == digits
  {
    if |digits| > 1 {
      var rest := JoinWithDots(digits[1..]);
      assert JoinWithDots(digits)[2..] == rest;
      SplitJoin(digits[1..]);
    }
  }

  /** Removing the dots gives back the digits, as long as the digits hold no
      dot themselves (base-36 digits never do). */
  lemma {:induction false} RemoveDotsJoin(digits: string)
    requires forall i :: 0 <= i < |digits| ==> digits[i] != '.'
    ensures RemoveDots(JoinWithDots(digits)) == digits
  {
    if |digits| > 1 {
      var rest := JoinWithDots(digits[1..]);
      assert JoinWithDots(digits) == [digits[0]] + (['.'] + rest);
      assert RemoveDots(['.'] + rest) == RemoveDots(rest) by {
        assert (['.'] + rest)[1..] == rest;
      }
      RemoveDotsJoin(digits[1..]);
      RemoveDotsAppendOne(digits[0], ['.'] + rest);
    } else if |digits| == 1 {
      assert RemoveDots(digits[1..]) == [];
    }
  }

  lemma RemoveDotsAppendOne(c: char, s: string)
    requires c != '.'
    ensures RemoveDots([c] + s) == [c] + RemoveDots(s)
  {
  }

  /** A base-36 text of at most seven characters leaves an empty suffix, so the
      sentinel is its bare prefix. */
  lemma ShortTextGivesBarePrefix(base36: string)
    requires |base36| <= 7
    ensures Init(base36) == InitPrefix
    ensures Replace(base36) == ReplacePrefix
    ensures ProbeUnknownAction(base36) == ProbePrefix
  {
  }

  /** The three kinds of reserved action type never coincide, whatever random
      texts they were made from: they differ at the first character after
      `@@redux/`. */
  lemma {:induction false} ReservedTypesDistinct(x: string, y: string)
    ensures Init(x) != Replace(y)
    ensures Init(x) != ProbeUnknownAction(y)
    ensures Replace(x) != ProbeUnknownAction(y)
  {
    assert Init(x)[8] == 'I';
    assert Replace(y)[8] == 'R';
    assert ProbeUnknownAction(y)[8] == 'P';
    assert Replace(x)[8] == 'R';
  }

  /** Fresh digits give a fresh action type: two random texts whose digits
      from index 7 on differ give different sentinels of each kind, so every
      `PROBE_UNKNOWN_ACTION()` call with new digits returns a new string. */
  lemma {:induction false} DifferentDigitsGiveDifferentTypes(x: string, y: string)
    requires SkipSeven(x) != SkipSeven(y)
    ensures Init(x) != Init(y)
    ensures Replace(x) != Replace(y)
    ensures ProbeUnknownAction(x) != ProbeUnknownAction(y)
  {
  }
}
