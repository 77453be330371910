/** The profanity filter, the bad-word list edits of the settings API, and
    room-id generation. */
module Moderation {
  import opened Text
  import opened Records

  /** `checkProfanity`: the message, lower-cased and split on runs of white
      space, contains one of the bad words as a piece. */
  function CheckProfanity(badwords: seq<string>, message: string): bool {
    var words := SplitWords(Lower(message));
    exists w :: w in badwords && w in words
  }

  /** With no empty bad word, a message is profane exactly when some bad
      word is a whole word of the lower-cased message; a bad word inside a
      longer word is not a hit. */
  lemma ProfanityIsWholeWordMatch(badwords: seq<string>, message: string)
    requires forall w :: w in badwords ==> w != []
    ensures CheckProfanity(badwords, message)
            <==> exists w :: w in badwords && IsWholeWord(Lower(message), w)
  {
    forall w | w in badwords
      ensures w in SplitWords(Lower(message)) <==> IsWholeWord(Lower(message), w)
    {
      SplitWordsAreWholeWords(Lower(message), w);
    }
  }

  /** A bad word that occurs in the message only inside longer words does
      not make the message profane. */
  lemma EmbeddedWordIsNotProfane(w: string, message: string)
    requires w != [] && !IsWholeWord(Lower(message), w)
    ensures !CheckProfanity([w], message)
  {
    ProfanityIsWholeWordMatch([w], message);
  }

  /** An empty bad word (only a hand-edited settings file can hold one)
      hits a trimmed message exactly when the message is empty. */
  lemma EmptyBadWordHitsOnlyEmptyText(body: string)
    ensures CheckProfanity([""], Trim(body)) <==> Trim(body) == []
  {
    var t := Lower(Trim(body));
    if t != [] {
      assert LowerChar(Trim(body)[0]) == t[0];
      NoEmptyWord(t);
    } else {
      assert SplitWords(t) == [""];
      assert "" in [""] && "" in SplitWords(t);
    }
  }

  /** A non-empty text that neither starts nor ends with white space splits
      into non-empty pieces only. */
  lemma {:induction false} NoEmptyWord(s: string)
    requires s != [] && !IsSpace(s[0]) && !IsSpace(s[|s| - 1])
    ensures "" !in SplitWords(s)
    decreases |s|
  {
    var i := FirstSpace(s);
    if i < |s| {
      var j := SpaceRunEnd(s, i);
      assert j < |s| by {
        assert s[i..j][j - 1 - i] == s[j - 1];
      }
      NoEmptyWord(s[j..]);
    }
  }

  // ---------------------------------------------------------------------
  // Bad-word list edits (POST and DELETE /api/settings/badwords)
  // ---------------------------------------------------------------------

  /** POST: a non-empty word is added in lower case unless already listed. */
  function AddBadWord(badwords: seq<string>, word: string): (r: seq<string>)
    ensures word != [] ==> Lower(word) in r
    ensures word == [] || Lower(word) in badwords ==> r == badwords
    ensures forall b :: b in badwords ==> b in r
    ensures forall b :: b in r ==> b in badwords || b == Lower(word)
    ensures Distinct(badwords) ==> Distinct(r)
  {
    if word != [] && Lower(word) !in badwords then badwords + [Lower(word)] else badwords
  }

  /** DELETE: every copy of the lower-cased word is removed; an empty word
      changes nothing. */
  function RemoveBadWord(badwords: seq<string>, word: string): (r: seq<string>)
    ensures word != [] ==> Lower(word) !in r
    ensures forall b :: b in r <==> b in badwords && (word == [] || b != Lower(word))
    ensures word == [] || Lower(word) !in badwords ==> r == badwords
  {
    if word != [] then Without(badwords, Lower(word)) else badwords
  }

  /** Adding a word and deleting it again leaves the list as deleting it
      alone would. */
  lemma {:induction false} AddThenRemove(badwords: seq<string>, word: string)
    ensures RemoveBadWord(AddBadWord(badwords, word), word) == RemoveBadWord(badwords, word)
  {
    if word != [] && Lower(word) !in badwords {
      WithoutAppended(badwords, Lower(word));
    }
  }

  lemma {:induction false} WithoutAppended(s: seq<string>, x: string)
    ensures Without(s + [x], x) == Without(s, x)
  {
    if s != [] {
      assert (s + [x])[1..] == s[1..] + [x];
      WithoutAppended(s[1..], x);
    } else {
      assert Without([x], x) == Without([], x);
    }
  }

  /** Once a non-empty word has been added, a message that has it as a
      whole word (in lower case) is profane. */
  lemma AddedWordIsDetected(badwords: seq<string>, word: string, message: string)
    requires word != [] && IsWholeWord(Lower(message), Lower(word))
    ensures CheckProfanity(AddBadWord(badwords, word), message)
  {
    assert Lower(word) != [];
    SplitWordsAreWholeWords(Lower(message), Lower(word));
  }

  // ---------------------------------------------------------------------
  // Room ids
  // ---------------------------------------------------------------------

  /** `Math.floor(100000 + r * 900000)` for a draw `r` of `Math.random()`. */
  function RoomNumber(draw: real): (n: int)
    requires 0.0 <= draw < 1.0
    ensures 100000 <= n <= 999999
  {
    (100000.0 + draw * 900000.0).Floor
  }

  /** `generateRoomId`: "wafa" followed by a six-digit number. */
  function GenerateRoomId(draw: real): (r: RoomId)
    requires 0.0 <= draw < 1.0
    ensures |r| == 10 && r[..4] == "wafa"
    ensures AllDigits(r[4..]) && 100000 <= DigitsValue(r[4..]) <= 999999
    ensures DigitsValue(r[4..]) == RoomNumber(draw)
  {
    var n := RoomNumber(draw);
    DecimalLength(n, 5);
    DecimalRoundTrip(n);
    var r := "wafa" + Decimal(n);
    assert r[4..] == Decimal(n);
    r
  }
}
