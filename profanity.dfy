/** Profanity masking of the text typed into the name and company inputs.

    The text is split on the single space character (repeated spaces give
    empty tokens, exactly as String.prototype.split(' ') does), every token
    whose ASCII-lowercased form is on the denylist is replaced by as many
    '*' as it has characters, and the tokens are joined back with ' '.
 */
module Profanity {

  /** The fixed denylist of the component. */
  const Profanities: seq<string> := ["badword1", "badword2", "badword3"]

  const Space: char := ' '
  const MaskChar: char := '*'

  // ---------------------------------------------------------------------
  // Characters and words
  // ---------------------------------------------------------------------

  /** toLowerCase restricted to ASCII: 'A'..'Z' map to 'a'..'z', everything else is kept. */
  function LowerChar(c: char): char
  {
    if 'A' <= c <= 'Z' then (c as int - 'A' as int + 'a' as int) as char else c
  }

  function Lower(s: string): string
  {
    seq(|s|, i requires 0 <= i < |s| => LowerChar(s[i]))
  }

  /** '*'.repeat(n) */
  function Stars(n: nat): string
  {
    seq(n, i => MaskChar)
  }

  predicate IsProfane(word: string)
  {
    Lower(word) in Profanities
  }

  /** The mapping applied to each token. */
  function MaskWord(word: string): string
  {
    if IsProfane(word) then Stars(|word|) else word
  }

  function MaskAll(words: seq<string>): seq<string>
  {
    seq(|words|, k requires 0 <= k < |words| => MaskWord(words[k]))
  }

  // ---------------------------------------------------------------------
  // split(' ') and join(' ')
  // ---------------------------------------------------------------------

  /** No token contains a space. */
  predicate NoSpaces(words: seq<string>)
  {
    forall k :: 0 <= k < |words| ==> Space !in words[k]
  }

  /** text.split(' '): one token more than there are spaces, none of them
      containing a space. */
  function Split(s: string): (words: seq<string>)
    ensures |words| == multiset(s)[Space] + 1
    ensures NoSpaces(words)
    decreases |s|
  {
    if |s| == 0 then [""]
    else
      var rest := Split(s[1..]);
      assert s == [s[0]] + s[1..];
      if s[0] == Space then [""] + rest
      else [[s[0]] + rest[0]] + rest[1..]
  }

  /** words.join(' ') */
  function Join(words: seq<string>): string
    decreases |words|
  {
    if |words| == 0 then ""
    else if |words| == 1 then words[0]
    else words[0] + [Space] + Join(words[1..])
  }

  /** filterProfanity(text) */
  function FilterProfanity(text: string): string
  {
    Join(MaskAll(Split(text)))
  }

  // ---------------------------------------------------------------------
  // Split and Join are inverse
  // ---------------------------------------------------------------------

  lemma {:induction false} JoinConsChar(c: char, words: seq<string>)
    requires |words| > 0
    ensures Join([[c] + words[0]] + words[1..]) == [c] + Join(words)
  {
    var ws := [[c] + words[0]] + words[1..];
    if |words| > 1 {
      assert ws[1..] == words[1..];
    }
  }

  /** Splitting and joining again gives back the original text. */
  lemma {:induction false} JoinSplit(s: string)
    ensures Join(Split(s)) == s
    decreases |s|
  {
    if |s| > 0 {
      var rest := Split(s[1..]);
      JoinSplit(s[1..]);
      if s[0] == Space {
        assert Split(s) == [""] + rest;
        assert ([""] + rest)[1..] == rest;
        assert s == [Space] + s[1..];
      } else {
        JoinConsChar(s[0], rest);
        assert s == [s[0]] + s[1..];
      }
    }
  }

  lemma {:induction false} SplitSpaceFree(w: string)
    requires Space !in w
    ensures Split(w) == [w]
    decreases |w|
  {
    if |w| > 0 {
      assert Space !in w[1..] by {
        forall i | 0 <= i < |w[1..]| ensures w[1..][i] != Space { assert w[1..][i] == w[i + 1]; }
      }
      SplitSpaceFree(w[1..]);
      assert w == [w[0]] + w[1..];
    }
  }

  lemma {:induction false} SplitWordSpace(w: string, s: string)
    requires Space !in w
    ensures Split(w + [Space] + s) == [w] + Split(s)
    decreases |w|
  {
    var t := w + [Space] + s;
    if |w| == 0 {
      assert t == [Space] + s;
      assert t[1..] == s;
    } else {
      assert t[1..] == w[1..] + [Space] + s;
      assert Space !in w[1..] by {
        forall i | 0 <= i < |w[1..]| ensures w[1..][i] != Space { assert w[1..][i] == w[i + 1]; }
      }
      SplitWordSpace(w[1..], s);
      assert t[0] == w[0] != Space;
      assert Split(t) == [[w[0]] + w[1..]] + Split(s);
      assert w == [w[0]] + w[1..];
    }
  }

  /** Joining space-free tokens and splitting again gives back the tokens. */
  lemma {:induction false} SplitJoin(words: seq<string>)
    requires |words| > 0
    requires NoSpaces(words)
    ensures Split(Join(words)) == words
    decreases |words|
  {
    if |words| == 1 {
      SplitSpaceFree(words[0]);
    } else {
      assert Space !in words[0];
      SplitJoin(words[1..]);
      SplitWordSpace(words[0], Join(words[1..]));
      assert words == [words[0]] + words[1..];
    }
  }

  // ---------------------------------------------------------------------
  // One token
  // ---------------------------------------------------------------------

  lemma StarsNotProfane(n: nat)
    ensures !IsProfane(Stars(n))
  {
    assert Lower(Stars(n)) == Stars(n);
    if n == 8 {
      assert Stars(n)[0] == MaskChar;
    }
  }

  /** A token is changed exactly when it is on the denylist (case-insensitively),
      and then it becomes '*' repeated to its own length. */
  lemma MaskedIffProfane(word: string)
    ensures MaskWord(word) != word <==> IsProfane(word)
    ensures IsProfane(word) ==> MaskWord(word) == Stars(|word|)
    ensures |MaskWord(word)| == |word|
  {
    if IsProfane(word) {
      var l := Lower(word);
      assert |l| == 8 && l[0] == 'b';
      assert LowerChar(word[0]) == 'b';
      assert MaskWord(word)[0] == MaskChar;
    }
  }

  lemma MaskWordIdempotent(word: string)
    ensures MaskWord(MaskWord(word)) == MaskWord(word)
  {
    if IsProfane(word) {
      StarsNotProfane(|word|);
    }
  }

  lemma MaskAllNoSpaces(words: seq<string>)
    requires NoSpaces(words)
    ensures NoSpaces(MaskAll(words))
  {
    forall k | 0 <= k < |words| ensures Space !in MaskAll(words)[k] {
      if IsProfane(words[k]) {
        assert forall i :: 0 <= i < |words[k]| ==> Stars(|words[k]|)[i] == MaskChar;
      }
    }
  }

  // ---------------------------------------------------------------------
  // Character-wise view
  // ---------------------------------------------------------------------

  /** `masked` has the length of `s`, and each of its characters is either the
      character of `s` at that position or a '*' standing for a non-space. */
  predicate MaskedCopy(s: string, masked: string)
  {
    && |masked| == |s|
    && forall i :: 0 <= i < |s| ==> masked[i] == s[i] || (masked[i] == MaskChar && s[i] != Space)
  }

  lemma MaskedCopyConcat(a: string, am: string, b: string, bm: string)
    requires MaskedCopy(a, am) && MaskedCopy(b, bm)
    ensures MaskedCopy(a + b, am + bm)
  {
    forall i | 0 <= i < |a + b|
      ensures (am + bm)[i] == (a + b)[i] || ((am + bm)[i] == MaskChar && (a + b)[i] != Space)
    {
      if i >= |a| {
        assert (a + b)[i] == b[i - |a|] && (am + bm)[i] == bm[i - |a|];
      }
    }
  }

  lemma {:induction false} JoinMaskedCopy(words: seq<string>, masked: seq<string>)
    requires |masked| == |words|
    requires forall k :: 0 <= k < |words| ==> MaskedCopy(words[k], masked[k])
    ensures MaskedCopy(Join(words), Join(masked))
    decreases |words|
  {
    if |words| > 1 {
      JoinMaskedCopy(words[1..], masked[1..]);
      MaskedCopyConcat(words[0], masked[0], [Space], [Space]);
      MaskedCopyConcat(words[0] + [Space], masked[0] + [Space], Join(words[1..]), Join(masked[1..]));
    }
  }

  lemma MaskWordMaskedCopy(word: string)
    requires Space !in word
    ensures MaskedCopy(word, MaskWord(word))
  {
  }

  // ---------------------------------------------------------------------
  // Properties of filterProfanity
  // ---------------------------------------------------------------------

  /** The tokens of the filtered text are the input's tokens, each masked
      exactly when it is on the denylist. */
  lemma FilterTokens(text: string)
    ensures Split(FilterProfanity(text)) == MaskAll(Split(text))
  {
    MaskAllNoSpaces(Split(text));
    SplitJoin(MaskAll(Split(text)));
  }

  /** Length is kept, every output character is the input character at that
      position or '*', and spaces stay exactly where they were. */
  lemma FilterMasksInPlace(text: string)
    ensures |FilterProfanity(text)| == |text|
    ensures forall i :: 0 <= i < |text| ==>
      FilterProfanity(text)[i] == text[i] || FilterProfanity(text)[i] == MaskChar
    ensures forall i :: 0 <= i < |text| ==> (text[i] == Space <==> FilterProfanity(text)[i] == Space)
  {
    var words := Split(text);
    forall k | 0 <= k < |words| ensures MaskedCopy(words[k], MaskAll(words)[k]) {
      MaskWordMaskedCopy(words[k]);
    }
    JoinMaskedCopy(words, MaskAll(words));
    JoinSplit(text);
  }

  /** The filter leaves the text unchanged exactly when no token of it is on the denylist. */
  lemma FilterUnchangedIffClean(text: string)
    ensures FilterProfanity(text) == text <==> forall k :: 0 <= k < |Split(text)| ==> !IsProfane(Split(text)[k])
  {
    var words := Split(text);
    if forall k :: 0 <= k < |words| ==> !IsProfane(words[k]) {
      assert MaskAll(words) == words;
      JoinSplit(text);
    } else {
      var k :| 0 <= k < |words| && IsProfane(words[k]);
      MaskedIffProfane(words[k]);
      FilterTokens(text);
      assert Split(FilterProfanity(text))[k] != words[k];
    }
  }

  /** No token of the filtered text is on the denylist. */
  lemma FilterLeavesNoProfanity(text: string)
    ensures forall k :: 0 <= k < |Split(FilterProfanity(text))| ==> !IsProfane(Split(FilterProfanity(text))[k])
  {
    FilterTokens(text);
    var words := Split(text);
    forall k | 0 <= k < |words| ensures !IsProfane(MaskWord(words[k])) {
      if IsProfane(words[k]) {
        StarsNotProfane(|words[k]|);
      }
    }
  }

  /** Filtering twice is the same as filtering once. */
  lemma FilterIdempotent(text: string)
    ensures FilterProfanity(FilterProfanity(text)) == FilterProfanity(text)
  {
    FilterTokens(text);
    var words := Split(text);
    forall k | 0 <= k < |words| ensures MaskWord(MaskWord(words[k])) == MaskWord(words[k]) {
      MaskWordIdempotent(words[k]);
    }
    assert MaskAll(MaskAll(words)) == MaskAll(words);
  }

  /** A text without spaces is one token, filtered on its own. */
  lemma FilterSingleWord(word: string)
    requires Space !in word
    ensures FilterProfanity(word) == MaskWord(word)
  {
    SplitSpaceFree(word);
  }

  /** A denylisted word typed on its own comes out fully masked. */
  lemma FilterDenylisted(word: string)
    requires word in Profanities
    ensures FilterProfanity(word) == Stars(|word|)
    ensures FilterProfanity(word) != word
  {
    assert Space !in word && Lower(word) == word;
    FilterSingleWord(word);
    MaskedIffProfane(word);
  }

  /** A worked instance: a denylisted word between two ordinary ones, with a
      doubled space, and an upper-case variant that is matched too. */
  lemma FilterExample()
    ensures FilterProfanity("hello BadWord1  world") == "hello ********  world"
  {
    ExampleSplit();
    ExampleMask();
    ExampleJoin();
  }

  lemma ExampleSplit()
    ensures Split("hello BadWord1  world") == ["hello", "BadWord1", "", "world"]
  {
    var words := ["hello", "BadWord1", "", "world"];
    ExampleText();
    SplitJoin(words);
  }

  lemma ExampleText()
    ensures Join(["hello", "BadWord1", "", "world"]) == "hello BadWord1  world"
  {
    var words := ["hello", "BadWord1", "", "world"];
    assert Join(words[3..]) == "world";
    assert Join(words[2..]) == " world";
    assert Join(words[1..]) == "BadWord1  world";
  }

  lemma ExampleMask()
    ensures MaskAll(["hello", "BadWord1", "", "world"]) == ["hello", "********", "", "world"]
  {
    assert IsProfane("BadWord1") by { assert Lower("BadWord1") == "badword1"; }
    assert !IsProfane("hello") by { assert Lower("hello") == "hello"; }
    assert !IsProfane("world") by { assert Lower("world") == "world"; }
    assert !IsProfane("");
    assert Stars(8) == "********";
    var words := ["hello", "BadWord1", "", "world"];
    var masked := MaskAll(words);
    assert masked[0] == "hello" && masked[1] == "********" && masked[2] == "" && masked[3] == "world";
  }

  lemma ExampleJoin()
    ensures Join(["hello", "********", "", "world"]) == "hello ********  world"
  {
  }
}
