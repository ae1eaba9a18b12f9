/** Whole-word tokenisation of message text (internal/cryptography/keys.go). */
module Text {
  import opened Basics

  /** The Unicode tables the service relies on. `fold` stands for NFC, full case
      folding and NFC again; `emoji` is the closed reaction vocabulary. */
  datatype Unicode = Unicode(
    fold: string -> string,
    letter: char -> bool,
    space: char -> bool,
    emoji: string -> Option<string>)

  /** The longest prefix of `s` made of letters and digits. */
  function Prefix(letter: char -> bool, s: string): (n: nat)
    ensures n <= |s|
    ensures forall i | 0 <= i < n :: letter(s[i])
    ensures n < |s| ==> !letter(s[n])
  {
    if s == [] || !letter(s[0]) then 0 else 1 + Prefix(letter, s[1..])
  }

  /** The fields of `s`: the maximal runs of letters and digits, in order. */
  function Fields(letter: char -> bool, s: string): seq<string> {
    if s == [] then []
    else
      var n := Prefix(letter, s);
      if n == 0 then Fields(letter, s[1..]) else [s[..n]] + Fields(letter, s[n..])
  }

  /** `w` occurs in `s` at `i` as a complete word: no letter touches either end. */
  ghost predicate WordAt(letter: char -> bool, s: string, i: nat, w: string) {
    && w != []
    && i + |w| <= |s|
    && s[i..i + |w|] == w
    && (forall k | 0 <= k < |w| :: letter(w[k]))
    && (i == 0 || !letter(s[i - 1]))
    && (i + |w| == |s| || !letter(s[i + |w|]))
  }

  ghost predicate IsWord(letter: char -> bool, s: string, w: string) {
    exists i: nat :: WordAt(letter, s, i, w)
  }

  lemma WordAtShift(letter: char -> bool, s: string, n: nat, i: nat, w: string)
    requires n <= i && n <= |s|
    requires i == n ==> n == 0 || !letter(s[n - 1])
    ensures WordAt(letter, s, i, w) == (i - n <= |s[n..]| && WordAt(letter, s[n..], i - n, w))
  {
    if i + |w| <= |s| {
      assert s[n..][i - n..i - n + |w|] == s[i..i + |w|];
    }
  }

  /** A field of `s` is exactly a word bounded on both sides by a non-letter or by
      an end of the text. */
  lemma {:induction false} FieldsAreWords(letter: char -> bool, s: string, w: string)
    ensures w in Fields(letter, s) <==> IsWord(letter, s, w)
    decreases |s|
  {
    if s == [] {
    } else {
      var n := Prefix(letter, s);
      if n == 0 {
        FieldsAreWords(letter, s[1..], w);
        if IsWord(letter, s, w) {
          var i: nat :| WordAt(letter, s, i, w);
          assert w[0] == s[i];
          WordAtShift(letter, s, 1, i, w);
        }
        if IsWord(letter, s[1..], w) {
          var i: nat :| WordAt(letter, s[1..], i, w);
          WordAtShift(letter, s, 1, i + 1, w);
        }
      } else {
        FieldsAreWords(letter, s[n..], w);
        FirstField(letter, s, w);
      }
    }
  }

  lemma FirstField(letter: char -> bool, s: string, w: string)
    requires s != [] && Prefix(letter, s) > 0
    ensures IsWord(letter, s, w) <==> w == s[..Prefix(letter, s)] || IsWord(letter, s[Prefix(letter, s)..], w)
  {
    var n := Prefix(letter, s);
    if w == s[..n] {
      assert WordAt(letter, s, 0, w);
    }
    if IsWord(letter, s, w) {
      var i: nat :| WordAt(letter, s, i, w);
      if i == 0 {
        WordAtStart(letter, s, w);
      } else if i < n {
        assert false;
      } else {
        assert letter(s[i]) by { assert w[0] == s[i]; }
        WordAtShift(letter, s, n, i, w);
      }
    }
    if IsWord(letter, s[n..], w) {
      var i: nat :| WordAt(letter, s[n..], i, w);
      assert letter(s[n..][i]) by { assert w[0] == s[n..][i]; }
      WordAtShift(letter, s, n, n + i, w);
    }
  }

  lemma WordAtStart(letter: char -> bool, s: string, w: string)
    requires WordAt(letter, s, 0, w)
    ensures w == s[..Prefix(letter, s)]
  {
    var n := Prefix(letter, s);
    assert w == s[..|w|];
    assert forall k | 0 <= k < |w| :: letter(s[k]) by { assert forall k | 0 <= k < |w| :: s[k] == w[k]; }
  }

  /** The normalised word set of a text. */
  function Words(u: Unicode, text: string): set<string> {
    set w | w in Fields(u.letter, u.fold(text))
  }

  /** words: collects the distinct fields and refuses a text as soon as more than
      `max` of them have been seen, so no tail is ever silently left unindexed. */
  method CollectWords(u: Unicode, text: string, max: nat) returns (r: Result<set<string>>)
    ensures r == if |Words(u, text)| > max then Err(Invalid) else Ok(Words(u, text))
  {
    var normalized := u.fold(text);
    var fields := Fields(u.letter, normalized);
    var seen: set<string> := {};
    var i := 0;
    while i < |fields|
      invariant 0 <= i <= |fields|
      invariant seen == set w | w in fields[..i]
      invariant |seen| <= max
    {
      assert fields[..i + 1] == fields[..i] + [fields[i]];
      seen := seen + {fields[i]};
      i := i + 1;
      if |seen| > max {
        assert seen <= Words(u, text);
        SubsetSize(seen, Words(u, text));
        return Err(Invalid);
      }
    }
    assert fields[..i] == fields;
    return Ok(seen);
  }

  lemma SubsetSize<T>(a: set<T>, b: set<T>)
    requires a <= b
    ensures |a| <= |b|
  {
    assert b == a + (b - a);
  }
}
