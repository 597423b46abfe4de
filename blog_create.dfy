/** Publishing a blog post: the request is validated, an MDX file with a frontmatter block is
    assembled, and the file is committed through the GitHub contents API. */
module BlogCreate {
  import opened Wrappers
  import opened Http
  import opened Text
  import opened Access
  import opened Visits
  import opened Blog

  // ---------------------------------------------------------------------------
  // slugs: /^[a-z0-9]+(?:-[a-z0-9]+)*$/

  predicate IsSlugChar(c: char) {
    'a' <= c <= 'z' || '0' <= c <= '9'
  }

  predicate AllSlugChars(w: string) {
    forall i :: 0 <= i < |w| ==> IsSlugChar(w[i])
  }

  /** A word of the slug grammar: one or more lower-case letters and digits. */
  predicate IsWord(w: string) {
    w != [] && AllSlugChars(w)
  }

  /** The pieces from index `from` on are all words. */
  predicate WordsFrom(ps: seq<string>, from: nat) {
    forall k :: from <= k < |ps| ==> IsWord(ps[k])
  }

  /** The matcher of the slug pattern, one character at a time. `needWord` holds at the start
      and after a hyphen, where a word character must follow. */
  predicate SlugFrom(s: string, needWord: bool)
    decreases |s|
  {
    if s == [] then !needWord
    else if IsSlugChar(s[0]) then SlugFrom(s[1..], false)
    else if s[0] == '-' && !needWord then SlugFrom(s[1..], true)
    else false
  }

  predicate IsSlug(s: string) {
    SlugFrom(s, true)
  }

  lemma WordsFromCons(x: string, rest: seq<string>)
    ensures WordsFrom([x] + rest, 1) <==> WordsFrom(rest, 0)
    ensures WordsFrom([x] + rest, 0) <==> IsWord(x) && WordsFrom(rest, 0)
  {
    var r := [x] + rest;
    if WordsFrom(rest, 0) {
      forall k | 1 <= k < |r| ensures IsWord(r[k]) {
        assert r[k] == rest[k - 1];
      }
    }
    if WordsFrom(r, 1) {
      forall k | 0 <= k < |rest| ensures IsWord(rest[k]) {
        assert r[k + 1] == rest[k];
      }
    }
    assert r[0] == x;
  }

  lemma AllSlugCharsCons(c: char, w: string)
    ensures AllSlugChars([c] + w) <==> IsSlugChar(c) && AllSlugChars(w)
  {
    var x := [c] + w;
    assert x[0] == c;
    if IsSlugChar(c) && AllSlugChars(w) {
      forall i | 0 <= i < |x| ensures IsSlugChar(x[i]) {
        if i > 0 {
          assert x[i] == w[i - 1];
        }
      }
    }
    if AllSlugChars(x) {
      forall i | 0 <= i < |w| ensures IsSlugChar(w[i]) {
        assert x[i + 1] == w[i];
      }
    }
  }

  lemma {:induction false} SlugFromPieces(s: string)
    ensures SlugFrom(s, true) <==> WordsFrom(Split(s, '-'), 0)
    ensures SlugFrom(s, false) <==> AllSlugChars(Split(s, '-')[0]) && WordsFrom(Split(s, '-'), 1)
    decreases |s|
  {
    if s != [] {
      SlugFromPieces(s[1..]);
      var rest := Split(s[1..], '-');
      var r := Split(s, '-');
      if s[0] == '-' {
        assert r == [""] + rest;
        WordsFromCons("", rest);
      } else {
        var head := [s[0]] + rest[0];
        assert r == [head] + rest[1..];
        assert rest == [rest[0]] + rest[1..];
        WordsFromCons(head, rest[1..]);
        WordsFromCons(rest[0], rest[1..]);
        AllSlugCharsCons(s[0], rest[0]);
      }
    } else {
      assert Split(s, '-') == [""];
      assert !IsWord(Split(s, '-')[0]);
    }
  }

  /** A slug is accepted exactly when each of its hyphen-separated pieces is a non-empty run
      of lower-case letters and digits. */
  lemma SlugIsWordsJoined(s: string)
    ensures IsSlug(s) <==> forall k :: 0 <= k < |Split(s, '-')| ==> IsWord(Split(s, '-')[k])
  {
    SlugFromPieces(s);
    assert WordsFrom(Split(s, '-'), 0) <==> forall k :: 0 <= k < |Split(s, '-')| ==> IsWord(Split(s, '-')[k]);
  }

  /** So an accepted slug is not empty, does not start or end with a hyphen, and has no
      doubled hyphen. */
  lemma {:induction false} SlugShape(s: string, needWord: bool)
    requires SlugFrom(s, needWord)
    ensures needWord ==> s != [] && s[0] != '-'
    ensures s != [] ==> s[|s| - 1] != '-'
    ensures forall i :: 0 <= i < |s| - 1 ==> !(s[i] == '-' && s[i + 1] == '-')
    ensures forall i :: 0 <= i < |s| ==> IsSlugChar(s[i]) || s[i] == '-'
    decreases |s|
  {
    if s != [] {
      SlugShape(s[1..], !IsSlugChar(s[0]));
      assert forall i :: 1 <= i < |s| ==> s[i] == s[1..][i - 1];
    }
  }

  /** Words joined by hyphens form a slug. */
  lemma {:induction false} JoinedWordsAreSlug(ws: seq<string>)
    requires |ws| >= 1 && forall k :: 0 <= k < |ws| ==> IsWord(ws[k])
    ensures IsSlug(Join(ws, "-"))
    decreases |ws|
  {
    var d := '-';
    assert forall k :: 0 <= k < |ws| ==> d !in ws[k] by {
      forall k | 0 <= k < |ws| ensures d !in ws[k] {
        assert forall i :: 0 <= i < |ws[k]| ==> ws[k][i] != d;
      }
    }
    SplitJoin(ws, d);
    SlugIsWordsJoined(Join(ws, [d]));
  }

  // ---------------------------------------------------------------------------
  // tags

  /** The `tags` field of the request body: an array, a string, or anything else. */
  datatype TagsField = TagList(items: seq<string>) | TagText(text: string) | OtherTags

  /** `filter(Boolean)` on strings. */
  function NonEmpty(xs: seq<string>): (r: seq<string>)
    ensures |r| <= |xs|
    ensures forall i :: 0 <= i < |r| ==> r[i] != "" && r[i] in xs
    ensures (forall i :: 0 <= i < |xs| ==> xs[i] != "") ==> r == xs
    decreases |xs|
  {
    if xs == [] then []
    else
      var rest := NonEmpty(xs[1..]);
      assert forall x :: x in xs[1..] ==> x in xs;
      if xs[0] == "" then rest else [xs[0]] + rest
  }

  function TrimAll(xs: seq<string>): (r: seq<string>)
    ensures |r| == |xs| && forall i :: 0 <= i < |xs| ==> r[i] == Trim(xs[i])
  {
    seq(|xs|, i requires 0 <= i < |xs| => Trim(xs[i]))
  }

  /** `tags.split(',').map(t => t.trim()).filter(Boolean)`. */
  function TagsOfText(text: string): seq<string> {
    NonEmpty(TrimAll(Split(text, ',')))
  }

  /** The tag list written to the frontmatter: an array as it is, a string parsed, none
      otherwise. */
  function TagsArray(tags: TagsField): seq<string> {
    match tags
    case TagList(items) => items
    case TagText(text) => TagsOfText(text)
    case OtherTags => []
  }

  /** Trimming gives a trimmed substring. */
  lemma TrimPiece(x: string, c: char)
    ensures IsTrimmed(Trim(x))
    ensures c !in x ==> c !in Trim(x)
  {
    var u := TrimStart(x);
    var t := TrimEnd(u);
    if t != [] {
      assert t[0] == u[0];
    }
    if c in t {
      var i :| 0 <= i < |t| && t[i] == c;
      assert t[i] == u[i] == x[|x| - |u| + i];
    }
  }

  /** Parsed tags are non-empty, trimmed and free of commas. */
  lemma TagsOfTextItems(text: string)
    ensures PlainTags(TagsOfText(text))
  {
    var pieces := Split(text, ',');
    var trimmed := TrimAll(pieces);
    forall x | x in trimmed ensures IsTrimmed(x) && ',' !in x {
      var k :| 0 <= k < |trimmed| && trimmed[k] == x;
      TrimPiece(pieces[k], ',');
    }
  }

  /** Every tag gets one leading space. */
  function Padded(xs: seq<string>): (r: seq<string>)
    ensures |r| == |xs| && forall i :: 0 <= i < |xs| ==> r[i] == " " + xs[i]
  {
    seq(|xs|, i requires 0 <= i < |xs| => " " + xs[i])
  }

  lemma {:induction false} JoinPadded(xs: seq<string>)
    requires |xs| >= 1
    ensures " " + Join(xs, ", ") == Join(Padded(xs), ",")
    decreases |xs|
  {
    if |xs| >= 2 {
      JoinPadded(xs[1..]);
      assert Padded(xs)[1..] == Padded(xs[1..]);
    }
  }

  predicate PlainTags(ts: seq<string>) {
    forall i :: 0 <= i < |ts| ==> ts[i] != "" && IsTrimmed(ts[i]) && ',' !in ts[i]
  }

  lemma PiecesHaveNoComma(ts: seq<string>)
    requires |ts| >= 1 && PlainTags(ts)
    ensures var pieces := [ts[0]] + Padded(ts[1..]);
            forall k :: 0 <= k < |pieces| ==> ',' !in pieces[k]
  {
    var pieces := [ts[0]] + Padded(ts[1..]);
    forall k | 0 <= k < |pieces| ensures ',' !in pieces[k] {
      if k > 0 {
        assert pieces[k] == " " + ts[k];
      }
    }
  }

  lemma JoinHead(x: string, xs: seq<string>, sep: string)
    requires |xs| >= 1
    ensures Join([x] + xs, sep) == x + sep + Join(xs, sep)
  {
    assert ([x] + xs)[1..] == xs;
  }

  lemma JoinFirst(ts: seq<string>, sep: string)
    requires |ts| >= 2
    ensures Join(ts, sep) == ts[0] + sep + Join(ts[1..], sep)
  {
    assert ts == [ts[0]] + ts[1..];
    JoinHead(ts[0], ts[1..], sep);
  }

  lemma CommaSpace(x: string, j: string)
    ensures x + ", " + j == x + "," + (" " + j)
  {
    assert ", " == "," + " ";
  }

  lemma JoinIsPiecesLong(ts: seq<string>)
    requires |ts| >= 2
    ensures Join(ts, ", ") == Join([ts[0]] + Padded(ts[1..]), ",")
  {
    var x, xs := ts[0], ts[1..];
    var p, j := Padded(xs), Join(xs, ", ");
    JoinFirst(ts, ", ");
    JoinHead(x, p, ",");
    JoinPadded(xs);
    CommaSpace(x, j);
  }

  lemma JoinIsPieces(ts: seq<string>)
    requires |ts| >= 1
    ensures Join(ts, ", ") == Join([ts[0]] + Padded(ts[1..]), ",")
  {
    if |ts| >= 2 {
      JoinIsPiecesLong(ts);
    } else {
      assert Padded(ts[1..]) == [];
      assert [ts[0]] + Padded(ts[1..]) == ts;
    }
  }

  /** The pieces `Join(ts, ", ")` splits into at the commas. */
  lemma JoinedPieces(ts: seq<string>)
    requires |ts| >= 1 && PlainTags(ts)
    ensures Split(Join(ts, ", "), ',') == [ts[0]] + Padded(ts[1..])
  {
    JoinIsPieces(ts);
    PiecesHaveNoComma(ts);
    SplitJoin([ts[0]] + Padded(ts[1..]), ',');
  }

  lemma TrimTrimmed(t: string)
    requires IsTrimmed(t)
    ensures Trim(t) == t
  {
    TrimAfterSpaces("", t);
    assert "" + t == t;
  }

  lemma TrimPadded(t: string)
    requires IsTrimmed(t)
    ensures Trim(" " + t) == t
  {
    TrimAfterSpaces(" ", t);
  }

  lemma TrimmedPieces(ts: seq<string>, pieces: seq<string>)
    requires |pieces| == |ts| >= 1 && pieces[0] == ts[0]
    requires forall k :: 1 <= k < |ts| ==> pieces[k] == " " + ts[k]
    requires forall k :: 0 <= k < |ts| ==> IsTrimmed(ts[k])
    ensures TrimAll(pieces) == ts
  {
    var r := TrimAll(pieces);
    forall k | 0 <= k < |ts| ensures r[k] == ts[k] {
      if k == 0 {
        TrimTrimmed(ts[0]);
      } else {
        TrimPadded(ts[k]);
      }
    }
  }

  lemma TrimPieces(ts: seq<string>)
    requires |ts| >= 1 && PlainTags(ts)
    ensures TrimAll([ts[0]] + Padded(ts[1..])) == ts
  {
    var tail := ts[1..];
    var pieces := [ts[0]] + Padded(tail);
    forall k | 1 <= k < |ts| ensures pieces[k] == " " + ts[k] {
      assert ts[k] == tail[k - 1];
    }
    TrimmedPieces(ts, pieces);
  }

  /** Tags typed as a comma-and-space separated list are read back as the list. */
  lemma TagsOfJoinedText(ts: seq<string>)
    requires PlainTags(ts)
    ensures TagsOfText(Join(ts, ", ")) == ts
  {
    if ts == [] {
      assert Split("", ',') == [""];
      assert TrimAll([""]) == [""];
    } else {
      JoinedPieces(ts);
      TrimPieces(ts);
    }
  }

  // ---------------------------------------------------------------------------
  // quoting

  /** `s.replace(/"/g, '\\"')`, as the handler is written: every double quote gets a
      backslash in front, and a backslash is left as it is. */
  function Escape(s: string): string {
    ReplaceChar(s, '"', "\\\"")
  }

  /** The text of a YAML double-quoted scalar after its opening quote, read up to its closing
      quote: the value and the text after that quote. `\\` stands for a backslash and
      `\"` for a quote (section 5.7 of YAML 1.2); there is no value when the closing quote is
      missing, or when a backslash starts any other escape, which YAML reads as a control
      character or rejects and which this model does not decode. */
  function ReadQuoted(s: string): Option<(string, string)>
    decreases |s|
  {
    if s == [] then None
    else if s[0] == '"' then Some(([], s[1..]))
    else if s[0] == '\\' then
      if |s| >= 2 && (s[1] == '\\' || s[1] == '"') then
        match ReadQuoted(s[2..])
        case None => None
        case Some((v, rest)) => Some(([s[1]] + v, rest))
      else None
    else
      match ReadQuoted(s[1..])
      case None => None
      case Some((v, rest)) => Some(([s[0]] + v, rest))
  }

  /** Reading an escaped backslash or quote gives that character. */
  lemma ReadQuotedEscaped(c: char, tail: string)
    requires c == '\\' || c == '"'
    ensures ReadQuoted(tail).Some? ==>
              ReadQuoted(['\\', c] + tail) == Some(([c] + ReadQuoted(tail).value.0, ReadQuoted(tail).value.1))
    ensures ReadQuoted(tail).None? ==> ReadQuoted(['\\', c] + tail).None?
  {
    assert (['\\', c] + tail)[2..] == tail;
  }

  /** Reading any other character but a backslash or a quote gives it as it is. */
  lemma ReadQuotedPlain(c: char, tail: string)
    requires c != '\\' && c != '"'
    ensures ReadQuoted(tail).Some? ==>
              ReadQuoted([c] + tail) == Some(([c] + ReadQuoted(tail).value.0, ReadQuoted(tail).value.1))
    ensures ReadQuoted(tail).None? ==> ReadQuoted([c] + tail).None?
  {
    assert ([c] + tail)[1..] == tail;
  }

  /** Escaping as written is read back exactly when the text has no backslash: the quoted
      value, followed by anything, reads as the text and leaves what follows. */
  lemma {:induction false} EscapeReadBack(s: string, rest: string)
    requires '\\' !in s
    ensures ReadQuoted(Escape(s) + "\"" + rest) == Some((s, rest))
    decreases |s|
  {
    if s == [] {
      assert Escape(s) + "\"" + rest == "\"" + rest;
    } else {
      var tail := Escape(s[1..]) + "\"" + rest;
      EscapeReadBack(s[1..], rest);
      if s[0] == '"' {
        assert Escape(s) + "\"" + rest == ['\\', '"'] + tail;
        ReadQuotedEscaped('"', tail);
        assert [s[0]] + s[1..] == s;
      } else {
        assert Escape(s) + "\"" + rest == [s[0]] + tail;
        ReadQuotedPlain(s[0], tail);
        assert [s[0]] + s[1..] == s;
      }
    }
  }

  /** A title ending in a backslash, escaped as written, leaves its closing quote escaped:
      the value does not end where it should, and YAML does not read the title back. */
  lemma EscapeLosesTrailingBackslash()
    ensures Escape("a\\") == "a\\"
    ensures ReadQuoted(Escape("a\\") + "\"") == None
  {
    assert ReplaceChar("\\", '"', "\\\"") == "\\";
    assert ReplaceChar("a\\", '"', "\\\"") == "a\\";
    assert ReadQuoted("") == None;
    ReadQuotedEscaped('"', "");
    assert ['\\', '"'] + "" == "\\\"";
    ReadQuotedPlain('a', "\\\"");
    assert ['a'] + "\\\"" == "a\\\"";
    assert Escape("a\\") + "\"" == "a\\\"";
  }

  /** `s.replace(/\\/g, '\\\\').replace(/"/g, '\\"')`: a backslash in front of every
      backslash and every double quote. */
  function EscapeYaml(s: string): string
    decreases |s|
  {
    if s == [] then ""
    else (if s[0] == '\\' || s[0] == '"' then ['\\', s[0]] else [s[0]]) + EscapeYaml(s[1..])
  }

  /** The corrected escaping is the two global replacements, backslashes first. */
  lemma {:induction false} EscapeYamlIsReplaceBoth(s: string)
    ensures EscapeYaml(s) == ReplaceChar(ReplaceChar(s, '\\', "\\\\"), '"', "\\\"")
    decreases |s|
  {
    if s != [] {
      EscapeYamlIsReplaceBoth(s[1..]);
      var once := ReplaceChar(s, '\\', "\\\\");
      var head: string := if s[0] == '\\' then "\\\\" else [s[0]];
      assert once == head + ReplaceChar(s[1..], '\\', "\\\\");
      ReplaceCharAppend(head, ReplaceChar(s[1..], '\\', "\\\\"), '"', "\\\"");
      if s[0] == '\\' {
        assert ReplaceChar(head, '"', "\\\"") == "\\\\" by {
          assert head[1..][1..] == "";
        }
      } else {
        assert ReplaceChar(head, '"', "\\\"") == (if s[0] == '"' then "\\\"" else [s[0]]) by {
          assert head[1..] == "";
        }
      }
    }
  }

  /** Escaping brings in no character but a backslash. */
  lemma {:induction false} EscapeYamlNotIn(s: string, x: char)
    requires x != '\\' && x !in s
    ensures x !in EscapeYaml(s)
    decreases |s|
  {
    if s != [] {
      assert s[0] != x;
      EscapeYamlNotIn(s[1..], x);
    }
  }

  /** The corrected escaping agrees with the written one on text without a backslash. */
  lemma {:induction false} EscapeYamlAgrees(s: string)
    requires '\\' !in s
    ensures EscapeYaml(s) == Escape(s)
    decreases |s|
  {
    if s != [] {
      assert s[0] != '\\';
      EscapeYamlAgrees(s[1..]);
    }
  }

  /** The corrected escaping always reads back: the quoted value, followed by anything, reads
      as the text and leaves what follows. */
  lemma {:induction false} EscapeYamlReadBack(s: string, rest: string)
    ensures ReadQuoted(EscapeYaml(s) + "\"" + rest) == Some((s, rest))
    decreases |s|
  {
    if s == [] {
      assert EscapeYaml(s) + "\"" + rest == "\"" + rest;
    } else {
      EscapeYamlReadBack(s[1..], rest);
      EscapeYamlReadStep(s, rest);
    }
  }

  /** One character more of the corrected escaping is read back. */
  lemma EscapeYamlReadStep(s: string, rest: string)
    requires s != []
    requires ReadQuoted(EscapeYaml(s[1..]) + "\"" + rest) == Some((s[1..], rest))
    ensures ReadQuoted(EscapeYaml(s) + "\"" + rest) == Some((s, rest))
  {
    var tail := EscapeYaml(s[1..]) + "\"" + rest;
    EscapeYamlCons(s, rest);
    if s[0] == '\\' || s[0] == '"' {
      EscapedCharReadBack(s[0], s[1..], tail);
    } else {
      PlainCharReadBack(s[0], s[1..], tail);
    }
    assert [s[0]] + s[1..] == s;
  }

  /** The corrected escaping of a non-empty text, followed by the closing quote and more. */
  lemma EscapeYamlCons(s: string, rest: string)
    requires s != []
    ensures EscapeYaml(s) + "\"" + rest ==
              (if s[0] == '\\' || s[0] == '"' then ['\\', s[0]] else [s[0]]) + (EscapeYaml(s[1..]) + "\"" + rest)
  {
  }

  lemma PlainCharReadBack(c: char, s: string, tail: string)
    requires c != '\\' && c != '"'
    requires ReadQuoted(tail).Some? && ReadQuoted(tail).value.0 == s
    ensures ReadQuoted([c] + tail) == Some(([c] + s, ReadQuoted(tail).value.1))
  {
    ReadQuotedPlain(c, tail);
  }

  lemma EscapedCharReadBack(c: char, s: string, tail: string)
    requires c == '\\' || c == '"'
    requires ReadQuoted(tail).Some? && ReadQuoted(tail).value.0 == s
    ensures ReadQuoted(['\\', c] + tail) == Some(([c] + s, ReadQuoted(tail).value.1))
  {
    ReadQuotedEscaped(c, tail);
  }

  /** `"${t}"`. */
  function Quoted(t: string): string {
    "\"" + t + "\""
  }

  function QuoteAll(ts: seq<string>): (r: seq<string>)
    ensures |r| == |ts| && forall i :: 0 <= i < |ts| ==> r[i] == Quoted(ts[i])
  {
    seq(|ts|, i requires 0 <= i < |ts| => Quoted(ts[i]))
  }

  // ---------------------------------------------------------------------------
  // reading time

  /** `s.split(/\s+/)`: the pieces between maximal runs of white space; a leading or trailing
      run gives an empty first or last piece. */
  function SplitSpace(s: string): (r: seq<string>)
    ensures |r| >= 1
    decreases |s|
  {
    if s == [] then [""]
    else
      var rest := SplitSpace(s[1..]);
      if IsSpace(s[0]) then
        if s[1..] != [] && IsSpace(s[1]) then rest else [""] + rest
      else [[s[0]] + rest[0]] + rest[1..]
  }

  lemma {:induction false} SplitSpaceNoSpace(x: string)
    requires forall i :: 0 <= i < |x| ==> !IsSpace(x[i])
    ensures SplitSpace(x) == [x]
    decreases |x|
  {
    if x != [] {
      SplitSpaceNoSpace(x[1..]);
      assert [x[0]] + x[1..] == x;
    }
  }

  lemma {:induction false} SplitSpaceAfterWord(x: string, s: string)
    requires forall i :: 0 <= i < |x| ==> !IsSpace(x[i])
    requires s != [] && !IsSpace(s[0])
    ensures SplitSpace(x + " " + s) == [x] + SplitSpace(s)
    decreases |x|
  {
    var t := x + " " + s;
    if x == [] {
      assert t == " " + s && t[1..] == s;
    } else {
      assert t[1..] == x[1..] + " " + s;
      SplitSpaceAfterWord(x[1..], s);
      assert [x[0]] + x[1..] == x;
    }
  }

  predicate IsPlainWord(w: string) {
    w != [] && forall i :: 0 <= i < |w| ==> !IsSpace(w[i])
  }

  /** Words separated by single spaces are split back into the words. */
  lemma {:induction false} SplitSpaceJoin(ws: seq<string>)
    requires |ws| >= 1 && forall k :: 0 <= k < |ws| ==> IsPlainWord(ws[k])
    ensures SplitSpace(Join(ws, " ")) == ws
    decreases |ws|
  {
    if |ws| == 1 {
      SplitSpaceNoSpace(ws[0]);
    } else {
      var rest := Join(ws[1..], " ");
      SplitSpaceJoin(ws[1..]);
      assert rest != [] && rest[0] == ws[1][0] by {
        if |ws| == 2 {
        } else {
          assert rest == ws[1] + " " + Join(ws[2..], " ");
        }
      }
      SplitSpaceAfterWord(ws[0], rest);
      assert [ws[0]] + ws[1..] == ws;
    }
  }

  /** `Math.max(1, Math.ceil(words / 200))`. */
  function ReadingMinutes(words: nat): nat {
    var m := (words + 199) / 200;
    if m < 1 then 1 else m
  }

  /** At least one minute, and otherwise the number of started blocks of 200 words. */
  lemma ReadingMinutesBlocks(words: nat)
    ensures ReadingMinutes(words) >= 1
    ensures words >= 1 ==> 200 * (ReadingMinutes(words) - 1) < words <= 200 * ReadingMinutes(words)
  {
  }

  /** The default reading time, as text. */
  function ReadingTimeLabel(content: string): string {
    NatToString(ReadingMinutes(|SplitSpace(content)|)) + " min read"
  }

  /** A text of `n` words separated by single spaces reads in `ceil(n / 200)` minutes. */
  lemma ReadingTimeOfWords(ws: seq<string>)
    requires |ws| >= 1 && forall k :: 0 <= k < |ws| ==> IsPlainWord(ws[k])
    ensures ReadingTimeLabel(Join(ws, " ")) == NatToString(ReadingMinutes(|ws|)) + " min read"
  {
    SplitSpaceJoin(ws);
  }

  // ---------------------------------------------------------------------------
  // the file

  /** The values that go into the frontmatter. */
  datatype Post = Post(title: string, date: string, description: string, tags: seq<string>,
                       readingTime: string)

  function FrontmatterLines(p: Post): (r: seq<string>)
    ensures |r| == 7 && r[0] == "---" && r[6] == "---"
  {
    [ "---",
      "title: " + Quoted(EscapeYaml(p.title)),
      "date: " + Quoted(p.date),
      "description: " + Quoted(EscapeYaml(p.description)),
      "tags: [" + Join(QuoteAll(p.tags), ", ") + "]",
      "readingTime: " + Quoted(p.readingTime),
      "---" ]
  }

  /** Without a backslash in the title or the description, the frontmatter holds exactly
      the lines the route writes with its quote-only escaping. */
  lemma FrontmatterAsWritten(p: Post)
    requires '\\' !in p.title && '\\' !in p.description
    ensures FrontmatterLines(p)[1] == "title: " + Quoted(Escape(p.title))
    ensures FrontmatterLines(p)[3] == "description: " + Quoted(Escape(p.description))
  {
    EscapeYamlAgrees(p.title);
    EscapeYamlAgrees(p.description);
  }

  /** With a backslash the two differ: the title `a\` is written `"a\\"` here and `"a\"` by
      the route. */
  lemma FrontmatterDoublesBackslash(p: Post)
    requires p.title == "a\\"
    ensures FrontmatterLines(p)[1] == "title: \"a\\\\\""
    ensures FrontmatterLines(p)[1] != "title: " + Quoted(Escape(p.title))
  {
    assert EscapeYaml(p.title) == "a\\\\" by {
      assert EscapeYaml(p.title) == ['a'] + EscapeYaml("\\");
      assert EscapeYaml("\\") == ['\\', '\\'] + EscapeYaml("");
    }
    EscapeLosesTrailingBackslash();
  }

  function Frontmatter(p: Post): string {
    Join(FrontmatterLines(p), "\n")
  }

  /** The whole file: frontmatter, a blank line, the content and a final newline. */
  function FileContent(p: Post, content: string): string {
    Frontmatter(p) + "\n\n" + content + "\n"
  }

  /** Where a post is written. */
  function FilePath(slug: string): string {
    "content/blog/" + slug + ".mdx"
  }

  lemma NotInConcat(a: string, b: string, c: char)
    requires c !in a && c !in b
    ensures c !in a + b
  {
  }

  lemma {:induction false} NotInJoin(xs: seq<string>, sep: string, c: char)
    requires c !in sep && forall k :: 0 <= k < |xs| ==> c !in xs[k]
    ensures c !in Join(xs, sep)
    decreases |xs|
  {
    if |xs| >= 2 {
      NotInJoin(xs[1..], sep, c);
      NotInConcat(xs[0], sep, c);
      NotInConcat(xs[0] + sep, Join(xs[1..], sep), c);
    }
  }

  /** Field values without line breaks give a frontmatter of exactly the seven lines. */
  lemma FrontmatterHasSevenLines(p: Post)
    requires '\n' !in p.title && '\n' !in p.date && '\n' !in p.description && '\n' !in p.readingTime
    requires forall k :: 0 <= k < |p.tags| ==> '\n' !in p.tags[k]
    ensures Split(Frontmatter(p), '\n') == FrontmatterLines(p)
  {
    var c := '\n';
    var lines := FrontmatterLines(p);
    EscapeYamlNotIn(p.title, c);
    EscapeYamlNotIn(p.description, c);
    NotInJoin(QuoteAll(p.tags), ", ", c);
    forall k | 0 <= k < 7 ensures c !in lines[k] {
    }
    SplitJoin(lines, c);
  }

  // ---------------------------------------------------------------------------
  // the handler

  /** The destructured request body; `None` for a field that is missing. */
  datatype CreateBody = CreateBody(
    title: Option<string>, slug: Option<string>, description: Option<string>,
    tags: TagsField, readingTime: Option<string>, content: Option<string>)

  datatype CreateRequest = CreateRequest(httpMethod: string, authorization: Option<string>,
                                         body: Option<CreateBody>)

  datatype GitHubEnv = GitHubEnv(token: Option<string>, repo: Option<string>)

  /** The outcome of the PUT to the contents API: it threw, it succeeded, or it failed with a
      status and an error body whose `message` is read (`None` when the body is not JSON). */
  datatype PutOutcome = PutThrew | PutOk | PutFailed(status: nat, message: Option<Option<string>>)

  /** The commit the handler asks GitHub for. */
  datatype Commit = Commit(path: string, content: string, message: string)

  /** The JSON answers; `Crashed` is an exception that escapes the handler. */
  datatype CreateAnswer = CreateFailure(error: string) | Created(url: string) | Crashed

  predicate HasRequiredFields(b: CreateBody) {
    Truthy(b.title) && Truthy(b.slug) && Truthy(b.description) && Truthy(b.content)
  }

  /** The values written for a body with all required fields, on the day `dayIso`. */
  function PostOf(b: CreateBody, dayIso: string): Post
    requires HasRequiredFields(b)
  {
    Post(b.title.value, Day(dayIso), b.description.value, TagsArray(b.tags),
         if Truthy(b.readingTime) then b.readingTime.value else ReadingTimeLabel(b.content.value))
  }

  function CommitOf(b: CreateBody, dayIso: string): (c: Commit)
    requires HasRequiredFields(b)
    ensures c.path == FilePath(b.slug.value)
    ensures c.message == "Add blog post: " + b.title.value
  {
    Commit(FilePath(b.slug.value), FileContent(PostOf(b, dayIso), b.content.value),
           "Add blog post: " + b.title.value)
  }

  /** How the PUT outcome is answered: 201 with the post's URL on success, 409 for GitHub's
      422, the GitHub status with its message otherwise, and 500 when anything throws. */
  function Published(slug: string, put: PutOutcome): (r: Response<CreateAnswer>)
    ensures put.PutOk? ==> r.status == 201
    ensures put.PutOk? ==> r.body == Created("/blog/" + slug)
    ensures put.PutFailed? && put.message.Some? ==>
              r.status == if put.status == 422 then 409 else put.status
    ensures put.PutThrew? || (put.PutFailed? && put.message.None?) ==>
              r == Response(500, CreateFailure("Failed to create blog post"))
  {
    match put
    case PutThrew => Response(500, CreateFailure("Failed to create blog post"))
    case PutOk => Response(201, Created("/blog/" + slug))
    case PutFailed(status, message) =>
      if message.None? then Response(500, CreateFailure("Failed to create blog post"))
      else if status == 422 then Response(409, CreateFailure("A post with slug \"" + slug + "\" already exists"))
      else Response(status, CreateFailure(OrDefault(message.value, "GitHub API error")))
  }

  /** The early answers, in the order they are checked; `None` when every check passes. */
  function Rejection(req: CreateRequest, password: Option<string>, env: GitHubEnv): (r: Option<Response<CreateAnswer>>)
    ensures r.None? <==>
              req.httpMethod == "POST" && Authorized(req.authorization, password) &&
              Truthy(env.token) && Truthy(env.repo) && req.body.Some? &&
              HasRequiredFields(req.body.value) && IsSlug(req.body.value.slug.value)
    ensures r.Some? ==> r.value.status in {400, 401, 405, 500}
  {
    if req.httpMethod != "POST" then Some(Response(405, CreateFailure("Method not allowed")))
    else if !Authorized(req.authorization, password) then Some(Response(401, CreateFailure("Unauthorized")))
    else if !Truthy(env.token) || !Truthy(env.repo) then
      Some(Response(500, CreateFailure("GitHub integration not configured")))
    else if req.body.None? then Some(Response(500, Crashed))
    else if !HasRequiredFields(req.body.value) then
      Some(Response(400, CreateFailure("Missing required fields: title, slug, description, content")))
    else if !IsSlug(req.body.value.slug.value) then
      Some(Response(400, CreateFailure("Invalid slug format. Use lowercase letters, numbers, and hyphens.")))
    else None
  }

  /** The handler: the answer, and the commit it requests (if any). `dayIso` is the clock's
      ISO time stamp and `put` the outcome of the request. */
  function Handle(req: CreateRequest, password: Option<string>, env: GitHubEnv, dayIso: string,
                  put: PutOutcome): (r: (Response<CreateAnswer>, Option<Commit>))
    ensures r.1.Some? <==> Rejection(req, password, env).None?
    ensures r.1.Some? ==> r.1.value == CommitOf(req.body.value, dayIso) &&
                          r.0 == Published(req.body.value.slug.value, put)
    ensures r.1.None? ==> r.0 == Rejection(req, password, env).value
  {
    match Rejection(req, password, env)
    case Some(early) => (early, None)
    case None =>
      var b := req.body.value;
      (Published(b.slug.value, put), Some(CommitOf(b, dayIso)))
  }

  /** A non-POST request is refused before anything else is looked at. */
  lemma MethodCheckedFirst(req: CreateRequest, password: Option<string>, env: GitHubEnv, dayIso: string,
                           put: PutOutcome)
    requires req.httpMethod != "POST"
    ensures Handle(req, password, env, dayIso, put) == (Response(405, CreateFailure("Method not allowed")), None)
  {
  }

  /** A wrong token is refused before the configuration and the body are looked at. */
  lemma AuthCheckedBeforeBody(req: CreateRequest, password: Option<string>, env: GitHubEnv, dayIso: string,
                              put: PutOutcome)
    requires req.httpMethod == "POST" && Truthy(password) && BearerToken(req.authorization) != password
    ensures Handle(req, password, env, dayIso, put) == (Response(401, CreateFailure("Unauthorized")), None)
  {
  }

  /** Without a GitHub token or repository an authorised POST gets a 500, before the body is
      looked at. */
  lemma ConfigCheckedBeforeFields(req: CreateRequest, password: Option<string>, env: GitHubEnv, dayIso: string,
                                  put: PutOutcome)
    requires req.httpMethod == "POST" && Authorized(req.authorization, password)
    requires !Truthy(env.token) || !Truthy(env.repo)
    ensures Handle(req, password, env, dayIso, put) ==
              (Response(500, CreateFailure("GitHub integration not configured")), None)
  {
  }

  /** With GitHub configured, a body missing a required field gets a 400 naming the fields,
      whatever its slug. */
  lemma FieldsCheckedBeforeSlug(req: CreateRequest, password: Option<string>, env: GitHubEnv, dayIso: string,
                                put: PutOutcome)
    requires req.httpMethod == "POST" && Authorized(req.authorization, password)
    requires Truthy(env.token) && Truthy(env.repo)
    requires req.body.Some? && !HasRequiredFields(req.body.value)
    ensures Handle(req, password, env, dayIso, put) ==
              (Response(400, CreateFailure("Missing required fields: title, slug, description, content")), None)
  {
  }

  /** A body with every required field but an ill-formed slug gets the slug's 400, and nothing
      is committed. */
  lemma SlugCheckedLast(req: CreateRequest, password: Option<string>, env: GitHubEnv, dayIso: string,
                        put: PutOutcome)
    requires req.httpMethod == "POST" && Authorized(req.authorization, password)
    requires Truthy(env.token) && Truthy(env.repo)
    requires req.body.Some? && HasRequiredFields(req.body.value) && !IsSlug(req.body.value.slug.value)
    ensures Handle(req, password, env, dayIso, put) ==
              (Response(400, CreateFailure("Invalid slug format. Use lowercase letters, numbers, and hyphens.")), None)
  {
  }

  /** The file of a well-formed slug, as written and as the glob's key, reads back as the
      slug. */
  lemma SlugPathReadsBack(slug: string)
    requires IsSlug(slug)
    ensures SlugFromPath(FilePath(slug)) == slug && SlugFromPath(GlobKey(FilePath(slug))) == slug
  {
    SlugHasNoSlash(slug);
    SlugFromWrittenPath("content/blog/", slug);
    assert GlobKey(FilePath(slug)) == "../../content/blog/" + slug + ".mdx";
    SlugFromWrittenPath("../../content/blog/", slug);
  }

  lemma SlugHasNoSlash(slug: string)
    requires IsSlug(slug)
    ensures '/' !in slug
  {
    SlugShape(slug, true);
    forall i | 0 <= i < |slug| ensures slug[i] != '/' {
      assert IsSlugChar(slug[i]) || slug[i] == '-';
    }
  }

  /** A published post is at the path of its slug, and the blog index reads that path, as
      written and as the glob's key, back as the slug. */
  lemma PublishedPathHoldsSlug(req: CreateRequest, password: Option<string>, env: GitHubEnv, dayIso: string,
                               put: PutOutcome)
    requires Handle(req, password, env, dayIso, put).0.status == 201
    ensures var c := Handle(req, password, env, dayIso, put).1;
            c.Some? && IsSlug(req.body.value.slug.value) &&
            c.value.path == FilePath(req.body.value.slug.value) &&
            SlugFromPath(c.value.path) == req.body.value.slug.value &&
            SlugFromPath(GlobKey(c.value.path)) == req.body.value.slug.value
  {
    SlugPathReadsBack(req.body.value.slug.value);
  }

  /** Once published, a post is the one the blog index finds under its slug in the glob's
      module table; the frontmatter written has no `slug` key, so when the module read back
      has none either, the post found reads back its slug. */
  lemma PublishedPostFound(req: CreateRequest, password: Option<string>, env: GitHubEnv, dayIso: string,
                           put: PutOutcome, modules: seq<PostModule>, i: nat)
    requires Handle(req, password, env, dayIso, put).0.status == 201 && Handle(req, password, env, dayIso, put).1.Some?
    requires GlobModules(modules)
    requires i < |modules| && modules[i].path == GlobKey(Handle(req, password, env, dayIso, put).1.value.path)
    ensures PostBySlug(modules, req.body.value.slug.value) == Some(MetaOf(modules[i]))
    ensures modules[i].frontmatter.slug.None? ==>
              PostBySlug(modules, req.body.value.slug.value).value.slug == req.body.value.slug.value
  {
    PublishedPathHoldsSlug(req, password, env, dayIso, put);
    var slug := req.body.value.slug.value;
    assert SlugFromPath(modules[i].path) == slug;
    var k := FirstWithSlug(modules, slug);
    GlobSlugsDistinct(modules, k, i);
  }
}
