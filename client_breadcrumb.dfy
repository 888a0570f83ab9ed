// The breadcrumb trail derived from the current pathname (components/breadcrumb.tsx).

module Breadcrumb {
  import opened Common

  // ---- labels ----------------------------------------------------------------

  /** `link.replace(/-/g, " ")` */
  function DashesToSpaces(s: string): (r: string)
    ensures |r| == |s|
    ensures forall k :: 0 <= k < |s| ==> r[k] == if s[k] == '-' then ' ' else s[k]
  {
    if s == [] then [] else [if s[0] == '-' then ' ' else s[0]] + DashesToSpaces(s[1..])
  }

  /** `word.charAt(0).toUpperCase() + word.slice(1)` */
  function CapitalizeWord(w: string): (r: string)
    ensures |r| == |w|
  {
    if w == [] then [] else [UpperChar(w[0])] + w[1..]
  }

  function MapCapitalize(ws: seq<string>): (r: seq<string>)
    ensures |r| == |ws|
    ensures forall i :: 0 <= i < |ws| ==> r[i] == CapitalizeWord(ws[i])
  {
    seq(|ws|, i requires 0 <= i < |ws| => CapitalizeWord(ws[i]))
  }

  /** `.split(" ").map(capitalize).join(" ")` */
  function CapitalizeWords(t: string): (r: string)
    ensures r == TitleCase(t, true)
  {
    CapitalizeWordsIsTitleCase(t);
    Join(MapCapitalize(Split(t, ' ')), " ")
  }

  /**
   * The same text defined letter by letter: a letter is upper-cased when it opens
   * the text (and `atStart`) or follows a space; every other character is kept.
   */
  function TitleCase(t: string, atStart: bool): (r: string)
    ensures |r| == |t|
    ensures forall k :: 0 <= k < |t| ==>
      r[k] == if (k == 0 && atStart) || (k > 0 && t[k - 1] == ' ') then UpperChar(t[k]) else t[k]
  {
    if t == [] then []
    else
      var rest := TitleCase(t[1..], t[0] == ' ');
      assert forall j :: 0 <= j < |t| - 1 ==> t[1..][j] == t[j + 1];
      [if atStart then UpperChar(t[0]) else t[0]] + rest
  }

  /** Capitalising every piece, or every piece but the first. */
  function CapitalizePieces(ps: seq<string>, first: bool): (r: seq<string>)
    requires |ps| >= 1
    ensures |r| == |ps|
  {
    [if first then CapitalizeWord(ps[0]) else ps[0]] + MapCapitalize(ps[1..])
  }

  lemma {:induction false} JoinConsHead(x: char, a: string, rest: seq<string>, sep: string)
    ensures Join([[x] + a] + rest, sep) == [x] + Join([a] + rest, sep)
  {
    if |rest| > 0 {
      assert ([[x] + a] + rest)[1..] == rest;
      assert ([a] + rest)[1..] == rest;
    }
  }

  lemma {:induction false} CapitalizePiecesIsTitleCase(t: string, first: bool)
    ensures Join(CapitalizePieces(Split(t, ' '), first), " ") == TitleCase(t, first)
  {
    if t != [] {
      var rest := Split(t[1..], ' ');
      CapitalizePiecesIsTitleCase(t[1..], t[0] == ' ');
      var l := CapitalizePieces(rest, t[0] == ' ');
      if t[0] == ' ' {
        assert Split(t, ' ') == [""] + rest;
        assert CapitalizePieces(Split(t, ' '), first) == [""] + l by {
          assert MapCapitalize(([""] + rest)[1..]) == MapCapitalize(rest);
          assert l == [CapitalizeWord(rest[0])] + MapCapitalize(rest[1..]);
          assert MapCapitalize(rest) == [CapitalizeWord(rest[0])] + MapCapitalize(rest[1..]);
        }
        assert ([""] + l)[1..] == l;
      } else {
        var c := if first then UpperChar(t[0]) else t[0];
        var ps := Split(t, ' ');
        assert ps == [[t[0]] + rest[0]] + rest[1..];
        assert ps[1..] == rest[1..];
        assert CapitalizeWord([t[0]] + rest[0]) == [UpperChar(t[0])] + rest[0];
        assert CapitalizePieces(ps, first) == [[c] + rest[0]] + MapCapitalize(rest[1..]);
        assert l == [rest[0]] + MapCapitalize(rest[1..]);
        JoinConsHead(c, rest[0], MapCapitalize(rest[1..]), " ");
      }
    }
  }

  /** The split-map-join capitalisation is the letter-by-letter one. */
  lemma {:induction false} CapitalizeWordsIsTitleCase(t: string)
    ensures Join(MapCapitalize(Split(t, ' ')), " ") == TitleCase(t, true)
  {
    var ps := Split(t, ' ');
    CapitalizePiecesIsTitleCase(t, true);
    assert CapitalizePieces(ps, true) == MapCapitalize(ps) by {
      assert MapCapitalize(ps) == [CapitalizeWord(ps[0])] + MapCapitalize(ps[1..]);
    }
  }

  /** The text shown for one path segment. */
  function Label(segment: string, capitalizeLinks: bool): (r: string)
    ensures |r| == |segment|
    ensures forall k :: 0 <= k < |segment| && segment[k] == '-' ==> r[k] == ' '
  {
    var t := DashesToSpaces(segment);
    var r := if capitalizeLinks then CapitalizeWords(t) else t;
    forall k | 0 <= k < |segment| && segment[k] == '-' ensures r[k] == ' ' {
      assert t[k] == ' ' && UpperChar(' ') == ' ';
      if capitalizeLinks {
        var tc := TitleCase(t, true);
        assert r == tc;
        assert tc[k] == if (k == 0 && true) || (k > 0 && t[k - 1] == ' ') then UpperChar(t[k]) else t[k];
      }
    }
    r
  }

  /** With capitalisation on, a label is the segment with dashes as spaces and every word's first letter upper-cased. */
  lemma {:induction false} LabelLetters(segment: string)
    ensures |Label(segment, true)| == |segment|
    ensures forall k :: 0 <= k < |segment| ==>
      Label(segment, true)[k] ==
      if segment[k] == '-' then ' '
      else if k == 0 || segment[k - 1] == '-' || segment[k - 1] == ' ' then UpperChar(segment[k])
      else segment[k]
  {
    var t := DashesToSpaces(segment);
    CapitalizeWordsIsTitleCase(t);
    var r := TitleCase(t, true);
    assert Label(segment, true) == r;
    forall k | 0 <= k < |segment|
      ensures r[k] ==
        if segment[k] == '-' then ' '
        else if k == 0 || segment[k - 1] == '-' || segment[k - 1] == ' ' then UpperChar(segment[k])
        else segment[k]
    {
      if k > 0 {
        assert t[k - 1] == ' ' <==> segment[k - 1] == '-' || segment[k - 1] == ' ';
      }
    }
  }

  // ---- segments and links ------------------------------------------------------

  /** `paths.split("/").filter((path) => path)` */
  function Segments(pathname: string): (r: seq<string>)
    ensures forall p :: p in r ==> p != "" && '/' !in p
  {
    SplitPiecesHaveNoSeparator(pathname, '/');
    Filter(Split(pathname, '/'), (p: string) => p != "")
  }

  /** One entry after the home link; the last one is plain text, the others links. */
  datatype Crumb = Crumb(text: string, href: string, isLast: bool)

  /** `/${pathNames.slice(0, index + 1).join("/")}` */
  function Href(segments: seq<string>, i: nat): (r: string)
    requires i < |segments|
    ensures |r| >= 1 && r[0] == '/'
  {
    "/" + Join(segments[..i + 1], "/")
  }

  /** The link of the `i`-th crumb names exactly the first `i + 1` segments, when none holds a '/'. */
  lemma HrefSplitsBack(segments: seq<string>, i: nat)
    requires i < |segments|
    requires forall p :: p in segments ==> '/' !in p
    ensures Split(Href(segments, i)[1..], '/') == segments[..i + 1]
  {
    assert Href(segments, i)[1..] == Join(segments[..i + 1], "/");
    assert forall p :: p in segments[..i + 1] ==> p in segments;
    SplitJoin(segments[..i + 1], '/');
  }

  function Crumbs(pathname: string, capitalizeLinks: bool): (r: seq<Crumb>)
    ensures |r| == |Segments(pathname)|
    ensures forall i :: 0 <= i < |r| ==>
      r[i] == Crumb(Label(Segments(pathname)[i], capitalizeLinks), Href(Segments(pathname), i), i == |r| - 1)
  {
    var segs := Segments(pathname);
    seq(|segs|, i requires 0 <= i < |segs| => Crumb(Label(segs[i], capitalizeLinks), Href(segs, i), i == |segs| - 1))
  }

  /** The separator after the home link shows exactly when there is a crumb after it. */
  predicate LeadingSeparator(pathname: string) {
    |Segments(pathname)| > 0
  }

  lemma {:induction false} JoinAppend(a: seq<string>, b: seq<string>, sep: string)
    requires |a| >= 1 && |b| >= 1
    ensures Join(a + b, sep) == Join(a, sep) + sep + Join(b, sep)
  {
    if |a| == 1 {
      assert (a + b)[1..] == b;
    } else {
      assert (a + b)[1..] == a[1..] + b;
      JoinAppend(a[1..], b, sep);
    }
  }

  /** Each crumb links to a path that extends the previous crumbs' paths segment by segment. */
  lemma {:induction false} HrefExtends(segments: seq<string>, i: nat, j: nat)
    requires i < j < |segments|
    ensures Href(segments, j) == Href(segments, i) + "/" + Join(segments[i + 1..j + 1], "/")
  {
    assert segments[..j + 1] == segments[..i + 1] + segments[i + 1..j + 1];
    JoinAppend(segments[..i + 1], segments[i + 1..j + 1], "/");
  }

  lemma {:induction false} SplitJoin(segments: seq<string>, c: char)
    requires |segments| >= 1
    requires forall p :: p in segments ==> c !in p
    ensures Split(Join(segments, [c]), c) == segments
  {
    if |segments| == 1 {
      SplitNoSeparator(segments[0], c);
    } else {
      SplitJoin(segments[1..], c);
      SplitNoSeparator(segments[0], c);
      SplitConcat(segments[0], Join(segments[1..], [c]), c);
      assert segments == [segments[0]] + segments[1..];
    }
  }

  /** For a clean pathname the segments are its pieces and the last crumb links to the page itself. */
  lemma {:induction false} CleanPathname(segments: seq<string>)
    requires |segments| >= 1
    requires forall p :: p in segments ==> p != "" && '/' !in p
    ensures Segments("/" + Join(segments, "/")) == segments
    ensures Href(segments, |segments| - 1) == "/" + Join(segments, "/")
  {
    var path := "/" + Join(segments, "/");
    SplitJoin(segments, '/');
    SplitConcat("", Join(segments, "/"), '/');
    assert path == "" + ['/'] + Join(segments, "/");
    assert Split(path, '/') == [""] + segments;
    var keep := (p: string) => p != "";
    FilterConcat([""], segments, keep);
    FilterAll(segments, keep);
    assert Filter([""], keep) == [] by {
      assert [""][1..] == [];
    }
    assert segments[..|segments|] == segments;
  }

  /** A dashed segment reads as capitalised words. */
  lemma {:induction false} DashedLabel()
    ensures Label("new-item", true) == "New Item"
  {
    LabelLetters("new-item");
    assert UpperChar('n') == 'N' && UpperChar('i') == 'I';
  }
}
