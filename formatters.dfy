/** Display helpers: date ranges, the comma-separated technology list, truncation,
    initials and capitalisation. */
module Formatters {
  import opened Types
  import opened Text

  /** `formatDateRange(start, end?)`: `end || 'Present'` also treats an empty end as
      current. */
  function FormatDateRange(startDate: string, endDate: Option<string>): (r: string)
    ensures endDate.Some? && endDate.value != "" ==> r == startDate + " - " + endDate.value
    ensures endDate.None? || endDate.value == "" ==> r == startDate + " - Present"
  {
    startDate + " - " + (if endDate.Some? && endDate.value != "" then endDate.value else "Present")
  }

  /** An empty end date reads the same as an absent one: both mean "current". */
  lemma EmptyEndIsCurrent(startDate: string)
    ensures FormatDateRange(startDate, Some("")) == FormatDateRange(startDate, None)
  {
  }

  /** `formatTechnologies(xs)`: the names joined by a comma and a space. */
  function FormatTechnologies(technologies: seq<string>): string {
    Join(technologies, ", ")
  }

  /** `.map(s => s.trim())`. */
  function TrimEach(xs: seq<string>): (r: seq<string>)
    ensures |r| == |xs|
    ensures forall i | 0 <= i < |xs| :: r[i] == Trim(xs[i])
  {
    seq(|xs|, i requires 0 <= i < |xs| => Trim(xs[i]))
  }

  /** `.filter(Boolean)` on strings: drops the empty ones, keeping order. */
  function DropEmpty(xs: seq<string>): (r: seq<string>)
    ensures |r| <= |xs|
    ensures forall x | x in r :: x in xs && x != ""
    ensures forall x | x in xs && x != "" :: x in r
  {
    if xs == [] then []
    else (if xs[0] == "" then [] else [xs[0]]) + DropEmpty(xs[1..])
  }

  /** `parseTechnologies(s)`: the comma-separated pieces, trimmed, empty ones dropped. */
  function ParseTechnologies(s: string): (r: seq<string>)
    ensures forall i | 0 <= i < |r| :: r[i] != "" && ',' !in r[i] && Trim(r[i]) == r[i]
  {
    var pieces := Split(s, ',');
    var trimmed := TrimEach(pieces);
    forall x | x in trimmed ensures ',' !in x && Trim(x) == x {
      var k :| 0 <= k < |trimmed| && trimmed[k] == x;
      TrimmedClean(pieces[k]);
    }
    DropEmpty(trimmed)
  }

  /** Trimming keeps a piece free of commas and cannot be undone by trimming again. */
  lemma TrimmedClean(p: string)
    requires ',' !in p
    ensures ',' !in Trim(p) && Trim(Trim(p)) == Trim(p)
  {
    TrimIsSlice(p);
    var i, j :| 0 <= i <= j <= |p| && Trim(p) == p[i..j];
    assert forall c | c in p[i..j] :: c in p;
    TrimOfTrimmed(Trim(p));
  }

  lemma ParseCons(a: string, rest: seq<string>)
    ensures DropEmpty(TrimEach([a] + rest)) == (if Trim(a) == "" then [] else [Trim(a)]) + DropEmpty(TrimEach(rest))
  {
    assert TrimEach([a] + rest) == [Trim(a)] + TrimEach(rest);
    assert ([Trim(a)] + TrimEach(rest))[1..] == TrimEach(rest);
  }

  /** Parsing a whitespace lead-in followed by a formatted list gives the list back. */
  lemma {:induction false} ParseFormattedAfterSpace(w: string, ys: seq<string>)
    requires AllWhitespace(w) && ',' !in w
    requires forall i | 0 <= i < |ys| :: ys[i] != "" && ',' !in ys[i] && Trim(ys[i]) == ys[i]
    ensures ParseTechnologies(w + FormatTechnologies(ys)) == ys
    decreases |ys|
  {
    var s := w + FormatTechnologies(ys);
    if |ys| == 0 {
      assert s == w;
      SplitNoSep(w, ',');
      TrimEmptyIff(w);
      ParseCons(w, []);
    } else if |ys| == 1 {
      assert s == w + ys[0];
      SplitNoSep(w + ys[0], ',');
      TrimSkipsLeading(w, ys[0]);
      ParseCons(w + ys[0], []);
    } else {
      var tail := " " + FormatTechnologies(ys[1..]);
      assert s == (w + ys[0]) + [','] + tail;
      SplitAtSep(w + ys[0], ',', tail);
      TrimSkipsLeading(w, ys[0]);
      ParseCons(w + ys[0], Split(tail, ','));
      ParseFormattedAfterSpace(" ", ys[1..]);
      assert ys == [ys[0]] + ys[1..];
    }
  }

  /** Round trip: a list of non-empty, already trimmed, comma-free names survives
      being formatted for the text field and parsed back. */
  lemma ParseFormatRoundTrip(technologies: seq<string>)
    requires forall i | 0 <= i < |technologies| ::
      technologies[i] != "" && ',' !in technologies[i] && Trim(technologies[i]) == technologies[i]
    ensures ParseTechnologies(FormatTechnologies(technologies)) == technologies
  {
    ParseFormattedAfterSpace("", technologies);
    assert "" + FormatTechnologies(technologies) == FormatTechnologies(technologies);
  }

  /** Parsing keeps order: the pieces before a comma come before those after it. */
  lemma {:induction false} ParseTechnologiesConcat(a: string, b: string)
    ensures ParseTechnologies(a + "," + b) == ParseTechnologies(a) + ParseTechnologies(b)
  {
    SplitConcat(a, b);
    DropTrimConcat(Split(a, ','), Split(b, ','));
  }

  lemma {:induction false} SplitConcat(a: string, b: string)
    ensures Split(a + "," + b, ',') == Split(a, ',') + Split(b, ',')
  {
    if a == [] {
      assert a + "," + b == "" + [','] + b;
      SplitAtSep("", ',', b);
    } else {
      var t := a[1..] + "," + b;
      assert a == [a[0]] + a[1..] && a + "," + b == [a[0]] + t;
      SplitCons(a[0], a[1..], ',');
      SplitCons(a[0], t, ',');
      SplitConcat(a[1..], b);
      HeadMerge(a[0], Split(a[1..], ','), Split(b, ','));
    }
  }

  /** Splicing a first character into the first piece commutes with appending
      further pieces. */
  lemma HeadMerge(c: char, ra: seq<string>, rb: seq<string>)
    requires |ra| >= 1
    ensures [""] + (ra + rb) == ([""] + ra) + rb
    ensures [[c] + (ra + rb)[0]] + (ra + rb)[1..] == ([[c] + ra[0]] + ra[1..]) + rb
  {
    assert (ra + rb)[0] == ra[0] && (ra + rb)[1..] == ra[1..] + rb;
  }

  lemma TrimEachConcat(xs: seq<string>, ys: seq<string>)
    ensures TrimEach(xs + ys) == TrimEach(xs) + TrimEach(ys)
  {
    var l, r := TrimEach(xs + ys), TrimEach(xs) + TrimEach(ys);
    forall i | 0 <= i < |l| ensures l[i] == r[i] {
      if i < |xs| {
        assert (xs + ys)[i] == xs[i];
      } else {
        assert (xs + ys)[i] == ys[i - |xs|];
      }
    }
  }

  lemma {:induction false} DropEmptyConcat(xs: seq<string>, ys: seq<string>)
    ensures DropEmpty(xs + ys) == DropEmpty(xs) + DropEmpty(ys)
  {
    if xs == [] {
      assert xs + ys == ys;
    } else {
      var h := if xs[0] == "" then [] else [xs[0]];
      assert (xs + ys)[0] == xs[0] && (xs + ys)[1..] == xs[1..] + ys;
      DropEmptyConcat(xs[1..], ys);
      calc {
        DropEmpty(xs + ys);
        h + DropEmpty(xs[1..] + ys);
        h + (DropEmpty(xs[1..]) + DropEmpty(ys));
        (h + DropEmpty(xs[1..])) + DropEmpty(ys);
        DropEmpty(xs) + DropEmpty(ys);
      }
    }
  }

  lemma DropTrimConcat(xs: seq<string>, ys: seq<string>)
    ensures DropEmpty(TrimEach(xs + ys)) == DropEmpty(TrimEach(xs)) + DropEmpty(TrimEach(ys))
  {
    TrimEachConcat(xs, ys);
    DropEmptyConcat(TrimEach(xs), TrimEach(ys));
  }

  /** `truncateText(text, maxLength)`: short enough text is returned as it is;
      otherwise the first `maxLength` characters (none for a negative bound, as
      `substring` clamps), trimmed, then "...". */
  function TruncateText(text: string, maxLength: int): (r: string)
    ensures |text| <= maxLength ==> r == text
    ensures |text| > maxLength ==> r == Trim(text[..if maxLength < 0 then 0 else maxLength]) + "..."
  {
    if |text| <= maxLength then text
    else Trim(text[..if maxLength < 0 then 0 else maxLength]) + "..."
  }

  /** A truncated text ends in "..." and is at most three characters longer than the
      bound. */
  lemma TruncateBound(text: string, maxLength: int)
    requires |text| > maxLength
    ensures |TruncateText(text, maxLength)| <= (if maxLength < 0 then 0 else maxLength) + 3
    ensures TruncateText(text, maxLength)[|TruncateText(text, maxLength)| - 3..] == "..."
  {
  }

  /** The two branches can meet: a text that already ends in "..." after the cut
      point comes back unchanged even though it was truncated. */
  lemma TruncateMayReturnInput()
    ensures |"ab..."| > 2 && TruncateText("ab...", 2) == "ab..."
  {
    assert "ab..."[..2] == "ab";
    TrimOfTrimmed("ab");
  }

  /** `n[0]` of each part; an empty part gives `undefined`, which `join('')` prints
      as nothing. */
  function Head(part: string): (r: string)
    ensures |r| <= 1
  {
    if part == [] then [] else [part[0]]
  }

  /** `generateInitials(name)`: the first character of each `' '`-separated part. */
  function GenerateInitials(name: string): string {
    var parts := Split(name, ' ');
    Join(seq(|parts|, i requires 0 <= i < |parts| => Head(parts[i])), "")
  }

  lemma {:induction false} JoinShortPieces(xs: seq<string>)
    requires forall i | 0 <= i < |xs| :: |xs[i]| <= 1
    ensures |Join(xs, "")| <= |xs|
    ensures forall c | c in Join(xs, "") :: exists i | 0 <= i < |xs| :: c in xs[i]
  {
    if |xs| > 1 {
      JoinShortPieces(xs[1..]);
      forall c | c in Join(xs, "") ensures exists i | 0 <= i < |xs| :: c in xs[i] {
        assert Join(xs, "") == xs[0] + Join(xs[1..], "");
        if c !in xs[0] {
          var i :| 0 <= i < |xs[1..]| && c in xs[1..][i];
          assert c in xs[i + 1];
        }
      }
    }
  }

  /** There are never more initials than parts, and no initial is a space. */
  lemma InitialsBound(name: string)
    ensures |GenerateInitials(name)| <= |Split(name, ' ')|
    ensures forall c | c in GenerateInitials(name) :: c != ' ' && c in name
  {
    var parts := Split(name, ' ');
    var heads := seq(|parts|, i requires 0 <= i < |parts| => Head(parts[i]));
    JoinShortPieces(heads);
    forall c | c in GenerateInitials(name) ensures c != ' ' && c in name {
      var i :| 0 <= i < |heads| && c in heads[i];
      assert c == parts[i][0];
      JoinHasPieces(parts, i, ' ');
    }
  }

  /** Words that are non-empty and hold no space, joined by single spaces, give
      their first characters in order. */
  lemma InitialsOfWords(ws: seq<string>)
    requires |ws| >= 1
    requires forall i | 0 <= i < |ws| :: ws[i] != [] && ' ' !in ws[i]
    ensures GenerateInitials(Join(ws, " ")) == seq(|ws|, i requires 0 <= i < |ws| => ws[i][0])
  {
    SplitJoin(ws, ' ');
    var heads := seq(|ws|, i requires 0 <= i < |ws| => Head(ws[i]));
    var firsts := seq(|ws|, i requires 0 <= i < |ws| => ws[i][0]);
    JoinSingles(heads, firsts);
  }

  /** One-character pieces joined with nothing between them spell their characters. */
  lemma {:induction false} JoinSingles(xs: seq<string>, cs: seq<char>)
    requires |xs| == |cs|
    requires forall i | 0 <= i < |xs| :: xs[i] == [cs[i]]
    ensures Join(xs, "") == cs
  {
    if |xs| == 1 {
      assert cs == [cs[0]];
    } else if |xs| > 1 {
      JoinSingles(xs[1..], cs[1..]);
      assert cs == [cs[0]] + cs[1..];
    }
  }

  /** Every character of a piece occurs in the joined text. */
  lemma {:induction false} JoinHasPieces(parts: seq<string>, i: int, sep: char)
    requires 0 <= i < |parts|
    ensures forall c | c in parts[i] :: c in Join(parts, [sep])
  {
    if |parts| > 1 {
      if i > 0 {
        JoinHasPieces(parts[1..], i - 1, sep);
      }
    }
  }

  /** An upper-case letter for a lower-case ASCII letter; every other character is
      left as it is. */
  function ToUpper(c: char): (r: char)
    ensures 'a' <= c <= 'z' ==> 'A' <= r <= 'Z'
    ensures !('a' <= c <= 'z') ==> r == c
  {
    if 'a' <= c <= 'z' then (c as int - 32) as char else c
  }

  /** `capitalizeFirst(str)`: the first character upper-cased, the rest untouched. */
  function CapitalizeFirst(str: string): (r: string)
    ensures |r| == |str|
    ensures str == [] ==> r == []
    ensures str != [] ==> r[1..] == str[1..]
    ensures str != [] ==> r[0] == ToUpper(str[0])
  {
    if str == [] then "" else [ToUpper(str[0])] + str[1..]
  }

  /** Capitalising twice is capitalising once. */
  lemma CapitalizeIdempotent(str: string)
    ensures CapitalizeFirst(CapitalizeFirst(str)) == CapitalizeFirst(str)
  {
  }
}
