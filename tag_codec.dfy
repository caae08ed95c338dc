/**
 * The tag-list codec of the pursuit forms: a list of tags (contacts,
 * responsibles) is stored in one form string joined with ", " and read back
 * by splitting on ", ", with the empty string standing for the empty list.
 */
module TagCodec {
  import opened Text

  const Separator := ", "

  /** A tag the codec can carry unchanged: it does not contain the separator. */
  predicate Clean(t: string) {
    !Contains(t, Separator)
  }

  /** Reading a tag field: `s ? s.split(", ") : []`. */
  function Decode(s: string): (tags: seq<string>)
    ensures tags == [] <==> s == ""
  {
    if s == "" then [] else Split(s, Separator)
  }

  /** Storing a tag list: `tags.join(", ")`. */
  function Encode(tags: seq<string>): (s: string)
    ensures tags == [] ==> s == ""
  {
    Join(tags, Separator)
  }

  /** Every stored string survives a read followed by a store. */
  lemma EncodeDecode(s: string)
    ensures Encode(Decode(s)) == s
  {
    if s != "" {
      JoinSplit(s, Separator);
    }
  }

  /** A list of clean tags survives a store followed by a read, unless it is `[""]`. */
  lemma DecodeEncode(tags: seq<string>)
    requires forall i :: 0 <= i < |tags| ==> Clean(tags[i])
    requires tags != [""]
    ensures Decode(Encode(tags)) == tags
  {
    if tags != [] {
      SplitJoin(tags);
      if |tags| == 1 {
        assert Encode(tags) == tags[0];
      } else {
        assert Encode(tags) == tags[0] + Separator + Join(tags[1..], Separator);
      }
    }
  }

  /** The pieces read from any string are clean. */
  lemma DecodedTagsClean(s: string)
    ensures forall i :: 0 <= i < |Decode(s)| ==> Clean(Decode(s)[i])
  {
    if s != "" {
      SplitPiecesClean(s);
    }
  }

  /** `[""]` and a tag holding the separator are the two ways a store-read round trip loses a list. */
  lemma RoundTripLosses()
    ensures Decode(Encode([""])) == []
    ensures Decode(Encode(["a, b"])) == ["a", "b"]
  {
    assert Encode(["a, b"]) == "a" + Separator + "b";
    assert !Contains("b"[1..], Separator);
    SplitAfterPiece("a", "b");
    SplitWithout("b", Separator);
  }

  // Helper lemmas about `Split` on ", ".

  lemma {:induction false} SplitAfterPiece(t: string, rest: string)
    requires Clean(t)
    ensures Split(t + Separator + rest, Separator) == [t] + Split(rest, Separator)
    decreases |t|
  {
    var s := t + Separator + rest;
    if t == "" {
      assert s == Separator + rest;
      assert s[|Separator|..] == rest;
    } else {
      assert !(Separator <= s) by {
        if |t| == 1 {
          assert s[1] == ',';
        } else {
          assert s[..2] == t[..2];
        }
      }
      assert s[1..] == t[1..] + Separator + rest;
      SplitAfterPiece(t[1..], rest);
      SplitCharFirst(s, Separator);
      assert s[0] == t[0] && [t[0]] + t[1..] == t;
    }
  }

  lemma {:induction false} SplitJoin(parts: seq<string>)
    requires parts != []
    requires forall i :: 0 <= i < |parts| ==> Clean(parts[i])
    ensures Split(Join(parts, Separator), Separator) == parts
  {
    if |parts| == 1 {
      SplitWithout(parts[0], Separator);
    } else {
      SplitJoin(parts[1..]);
      SplitAfterPiece(parts[0], Join(parts[1..], Separator));
      assert [parts[0]] + parts[1..] == parts;
    }
  }

  lemma {:induction false} SplitPiecesClean(s: string)
    ensures forall i :: 0 <= i < |Split(s, Separator)| ==> Clean(Split(s, Separator)[i])
    decreases |s|
  {
    if Separator <= s {
      SplitPiecesClean(s[|Separator|..]);
      assert !Contains("", Separator);
    } else if s != "" {
      var rest := Split(s[1..], Separator);
      SplitPiecesClean(s[1..]);
      var head := [s[0]] + rest[0];
      assert head[1..] == rest[0];
      assert !(Separator <= head);
      assert Split(s, Separator) == [head] + rest[1..];
    }
  }
}
