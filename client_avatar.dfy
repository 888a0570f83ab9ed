// The fallback initials of the user avatar (components/user-avatar.tsx).

module Avatar {
  import opened Common

  /** `n[0]` as `join` renders it: the first character, or nothing for an empty word. */
  function FirstChar(w: string): (r: string)
    ensures w != [] ==> r == [w[0]]
    ensures w == [] ==> r == []
  {
    if w == [] then [] else [w[0]]
  }

  /** `.map((n) => n[0])` */
  function MapFirst(ws: seq<string>): (r: seq<string>)
    ensures |r| == |ws|
    ensures forall i :: 0 <= i < |ws| ==> r[i] == FirstChar(ws[i])
  {
    seq(|ws|, i requires 0 <= i < |ws| => FirstChar(ws[i]))
  }

  /** The initials the avatar shows for an optional display name. */
  function Initials(name: Option<string>): (r: string)
    ensures |r| <= 2
    ensures name.None? || name.value == "" ==> r == "U"
  {
    if name.None? || name.value == "" then "U"
    else Take(ToUpper(Join(MapFirst(Split(name.value, ' ')), "")), 2)
  }

  // ---- the same initials read word by word -----------------------------------

  predicate NonEmpty(w: string) {
    w != []
  }

  /** The words of a name: the non-empty pieces between spaces. */
  function Words(name: string): (r: seq<string>)
    ensures forall i :: 0 <= i < |r| ==> r[i] != [] && ' ' !in r[i]
  {
    var ps := Split(name, ' ');
    SplitPiecesHaveNoSeparator(name, ' ');
    var r := Filter(ps, NonEmpty);
    forall i | 0 <= i < |r| ensures ' ' !in r[i] {
      assert r[i] in r;
      var k :| 0 <= k < |ps| && ps[k] == r[i];
    }
    r
  }

  /** The first letter of every word, in order. */
  function Heads(ws: seq<string>): (r: string)
    requires forall i :: 0 <= i < |ws| ==> ws[i] != []
    ensures |r| == |ws|
    ensures forall i :: 0 <= i < |ws| ==> r[i] == ws[i][0]
  {
    if ws == [] then [] else [ws[0][0]] + Heads(ws[1..])
  }

  lemma {:induction false} JoinEmptySeparator(ps: seq<string>)
    requires |ps| >= 1
    ensures Join(ps, "") == ps[0] + Join(ps[1..], "")
  {
  }

  /** Joining the first characters without a separator skips the empty pieces. */
  lemma {:induction false} JoinFirstChars(ps: seq<string>)
    ensures Join(MapFirst(ps), "") == Heads(Filter(ps, NonEmpty))
  {
    if ps != [] {
      var tail := Filter(ps[1..], NonEmpty);
      JoinFirstChars(ps[1..]);
      JoinEmptySeparator(MapFirst(ps));
      assert MapFirst(ps)[1..] == MapFirst(ps[1..]);
      assert Join(MapFirst(ps), "") == FirstChar(ps[0]) + Heads(tail);
      if ps[0] == [] {
        assert Filter(ps, NonEmpty) == tail;
      } else {
        assert Filter(ps, NonEmpty) == [ps[0]] + tail;
        assert ([ps[0]] + tail)[1..] == tail;
      }
    }
  }

  /**
   * The initials are the upper-cased first letters of the first two words; a
   * missing or empty name shows "U", and spaces between words count for nothing.
   */
  lemma {:induction false} InitialsAreFirstLetters(name: Option<string>)
    ensures |Initials(name)| <= 2
    ensures name.None? || name.value == "" ==> Initials(name) == "U"
    ensures name.Some? && name.value != "" ==>
      var ws := Words(name.value);
      && |Initials(name)| == (if |ws| < 2 then |ws| else 2)
      && forall k :: 0 <= k < |Initials(name)| ==> Initials(name)[k] == UpperChar(ws[k][0])
  {
    if name.Some? && name.value != "" {
      JoinFirstChars(Split(name.value, ' '));
    }
  }

  /** A name made only of spaces has no initials at all. */
  lemma BlankNameHasNoInitials()
    ensures Initials(Some(" ")) == ""
  {
    assert Split(" ", ' ') == ["", ""];
    assert Join(MapFirst(["", ""]), "") == "";
  }

  /** "John Smith" shows "JS": a first and a last name give their two upper-cased initials. */
  lemma {:induction false} FirstAndLastName(first: string, last: string)
    requires first != [] && last != [] && ' ' !in first && ' ' !in last
    ensures Initials(Some(first + " " + last)) == [UpperChar(first[0]), UpperChar(last[0])]
  {
    var name := first + " " + last;
    assert Split(name, ' ') == [first, last] by {
      assert name == first + [' '] + last;
      SplitConcat(first, last, ' ');
      SplitNoSeparator(first, ' ');
      SplitNoSeparator(last, ' ');
    }
    assert Join(MapFirst([first, last]), "") == [first[0], last[0]] by {
      assert MapFirst([first, last]) == [[first[0]], [last[0]]];
    }
  }
}
