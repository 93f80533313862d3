/** Locating the JSON literal embedded in a page as the argument of
    `JSON.parse("…")`, and decoding it. The search is that of the pattern
    `JSON\.parse\("(.+?)"\)` with `.` matching newlines: the leftmost start,
    then the shortest non-empty group followed by `")`. Backslashes have no
    meaning to the pattern, so an escaped quote followed by `)` still ends
    the group. */
module JsonExtract {
  import opened Wrappers
  import opened Json

  /** The text before the group: `JSON.parse("` (12 characters). */
  const Marker: string := "JSON.parse(\""

  /** `Marker` occurs at offset `i`. */
  predicate MarkerAt(html: string, i: int)
  {
    0 <= i && i + |Marker| <= |html| && html[i..i + |Marker|] == Marker
  }

  /** The text after the group, `")`, occurs at offset `q`. */
  predicate CloseAt(html: string, q: int)
  {
    0 <= q && q + 1 < |html| && html[q] == '"' && html[q + 1] == ')'
  }

  /** The pattern matches from offset `i`, with its group ending at `q`:
      the group `html[i + 12..q]` has at least one character. */
  predicate IsMatch(html: string, i: int, q: int)
  {
    MarkerAt(html, i) && i + |Marker| < q && CloseAt(html, q)
  }

  /** The match a regular-expression search reports: no match starts earlier,
      and of those starting at `i`, none has a shorter group. */
  ghost predicate FirstMatch(html: string, i: int, q: int)
  {
    IsMatch(html, i, q) && forall j, p :: IsMatch(html, j, p) ==> i < j || (i == j && q <= p)
  }

  /** The lazy group grows one character at a time until `")` follows:
      the first closing offset from `from` on. */
  function FindClose(html: string, from: nat): (r: Option<nat>)
    decreases |html| - from
    ensures r.Some? ==> from <= r.value && CloseAt(html, r.value)
                        && forall p :: from <= p < r.value ==> !CloseAt(html, p)
    ensures r.None? ==> forall p :: from <= p ==> !CloseAt(html, p)
  {
    if from + 1 >= |html| then None
    else if html[from] == '"' && html[from + 1] == ')' then Some(from)
    else FindClose(html, from + 1)
  }

  /** The search from offset `i` on: at each offset where the marker occurs,
      the shortest group, and failing that the next offset. */
  function SearchFrom(html: string, i: nat): (r: Option<(nat, nat)>)
    decreases |html| - i
    ensures r.Some? ==>
      i <= r.value.0 && IsMatch(html, r.value.0, r.value.1)
      && forall j, p :: i <= j && IsMatch(html, j, p) ==> r.value.0 < j || (r.value.0 == j && r.value.1 <= p)
    ensures r.None? ==> forall j, p :: i <= j ==> !IsMatch(html, j, p)
  {
    if |html| < i + |Marker| then None
    else if MarkerAt(html, i) then
      match FindClose(html, i + |Marker| + 1)
      case Some(q) => Some((i, q))
      case None => SearchFrom(html, i + 1)
    else SearchFrom(html, i + 1)
  }

  /** The literal between `JSON.parse("` and `")`, or nothing when the
      pattern does not match. */
  function ExtractJsonString(html: string): (r: Option<string>)
    ensures r.None? <==> forall i, q :: !IsMatch(html, i, q)
    ensures r.Some? ==> exists i, q :: FirstMatch(html, i, q) && r.value == html[i + |Marker|..q]
  {
    match SearchFrom(html, 0)
    case Some((i, q)) =>
      assert FirstMatch(html, i, q);
      Some(html[i + |Marker|..q])
    case None => None
  }

  /** The reported match is the only one meeting `FirstMatch`. */
  lemma FirstMatchUnique(html: string, i: int, q: int, i': int, q': int)
    requires FirstMatch(html, i, q) && FirstMatch(html, i', q')
    ensures i == i' && q == q'
  {
  }

  /** Of a group `s`, no `")` starts within it after its first character
      (reading on into the `")` that follows it). */
  ghost predicate ShortestGroup(s: string)
  {
    forall k :: 1 <= k < |s| ==> !CloseAt(s + "\")", k)
  }

  /** No match of the pattern starts before offset `n`. */
  ghost predicate NoMatchBefore(html: string, n: int)
  {
    forall j, q :: j < n ==> !IsMatch(html, j, q)
  }

  /** Where the pieces of `pre + Marker + s + "\")" + post` sit. */
  lemma SplitFacts(pre: string, s: string, post: string)
    ensures var html := pre + Marker + s + "\")" + post;
      && html[|pre|..|pre| + |Marker|] == Marker
      && html[|pre| + |Marker|..|pre| + |Marker| + |s|] == s
      && forall m :: 0 <= m < |s| + 2 ==> html[|pre| + |Marker| + m] == (s + "\")")[m]
  {
    var html := pre + Marker + s + "\")" + post;
    assert html == pre + (Marker + (s + "\")") + post);
    assert |html| == |pre| + |Marker| + |s| + 2 + |post|;
    assert html[|pre|..|pre| + |Marker|] == Marker;
    assert html[|pre| + |Marker|..|pre| + |Marker| + |s|] == s;
  }

  /** A text cut at four offsets is the concatenation of its five pieces. */
  lemma CutFive(html: string, a: nat, b: nat, c: nat, d: nat)
    requires a <= b <= c <= d <= |html|
    ensures html == html[..a] + html[a..b] + html[b..c] + html[c..d] + html[d..]
  {
    assert html[..b] == html[..a] + html[a..b];
    assert html[..c] == html[..b] + html[b..c];
    assert html[..d] == html[..c] + html[c..d];
    assert html == html[..d] + html[d..];
  }

  /** A match at `(i, q)` splits the page around its group. */
  lemma MatchSplits(html: string, i: int, q: int)
    requires IsMatch(html, i, q)
    ensures html == html[..i] + Marker + html[i + |Marker|..q] + "\")" + html[q + 2..]
  {
    assert html[q..q + 2] == "\")";
    CutFive(html, i, i + |Marker|, q, q + 2);
  }

  /** The group of the first match is the shortest one. */
  lemma FirstMatchShortest(html: string, i: int, q: int)
    requires FirstMatch(html, i, q)
    ensures ShortestGroup(html[i + |Marker|..q])
  {
    var s := html[i + |Marker|..q];
    forall k | 1 <= k < |s| ensures !CloseAt(s + "\")", k) {
      assert (s + "\")")[k] == html[i + |Marker| + k];
      assert (s + "\")")[k + 1] == html[i + |Marker| + k + 1];
      assert !IsMatch(html, i, i + |Marker| + k);
    }
  }

  /** A found literal `s` splits the page as
      `pre + "JSON.parse(\"" + s + "\")" + post`, is not empty, ends at the
      first `")` after its first character, and no match starts in `pre`. */
  lemma ExtractSplits(html: string)
    requires ExtractJsonString(html).Some?
    ensures var s := ExtractJsonString(html).value;
      |s| >= 1 && ShortestGroup(s)
      && exists pre, post :: html == pre + Marker + s + "\")" + post && NoMatchBefore(html, |pre|)
  {
    var s := ExtractJsonString(html).value;
    var i, q :| FirstMatch(html, i, q) && s == html[i + |Marker|..q];
    MatchSplits(html, i, q);
    FirstMatchShortest(html, i, q);
    var pre, post := html[..i], html[q + 2..];
    assert |pre| == i;
    assert NoMatchBefore(html, |pre|);
  }

  /** Within a shortest group, no `")` starts after its first character. */
  lemma NoCloseInsideGroup(pre: string, s: string, post: string, p: int)
    requires ShortestGroup(s)
    requires |pre| + |Marker| < p < |pre| + |Marker| + |s|
    ensures !CloseAt(pre + Marker + s + "\")" + post, p)
  {
    var html := pre + Marker + s + "\")" + post;
    var k := p - |pre| - |Marker|;
    SplitFacts(pre, s, post);
    assert (s + "\")")[k] == html[p] && (s + "\")")[k + 1] == html[p + 1];
    assert !CloseAt(s + "\")", k);
  }

  /** Conversely, such a split determines the literal that is found. */
  lemma ExtractOfSplit(pre: string, s: string, post: string)
    requires |s| >= 1
    requires ShortestGroup(s)
    requires NoMatchBefore(pre + Marker + s + "\")" + post, |pre|)
    ensures ExtractJsonString(pre + Marker + s + "\")" + post) == Some(s)
  {
    var html := pre + Marker + s + "\")" + post;
    SplitFacts(pre, s, post);
    var i, q := |pre|, |pre| + |Marker| + |s|;
    assert (s + "\")")[|s|] == '"' && (s + "\")")[|s| + 1] == ')';
    assert IsMatch(html, i, q);
    forall j, p | IsMatch(html, j, p) ensures i < j || (i == j && q <= p) {
      if j == i && p < q {
        NoCloseInsideGroup(pre, s, post, p);
      }
    }
    assert FirstMatch(html, i, q);
    var i', q' :| FirstMatch(html, i', q') && ExtractJsonString(html).value == html[i' + |Marker|..q'];
    FirstMatchUnique(html, i, q, i', q');
  }

  /** A backslash before `")` does not escape it: in `JSON.parse("a\")")`
      the literal found is `a\`. */
  lemma BackslashDoesNotEscape()
    ensures ExtractJsonString("JSON.parse(\"a\\\")\")") == Some("a\\")
  {
    assert "JSON.parse(\"a\\\")\")" == "" + Marker + "a\\" + "\")" + "\")";
    assert !CloseAt("a\\" + "\")", 1);
    ExtractOfSplit("", "a\\", "\")");
  }

  /** The literal may span lines. */
  lemma LiteralSpansLines()
    ensures ExtractJsonString("JSON.parse(\"{\n}\")") == Some("{\n}")
  {
    assert "JSON.parse(\"{\n}\")" == "" + Marker + "{\n}" + "\")" + "";
    assert !CloseAt("{\n}" + "\")", 1) && !CloseAt("{\n}" + "\")", 2);
    ExtractOfSplit("", "{\n}", "");
  }

  /** An empty argument is not matched: the group needs one character. */
  lemma EmptyArgumentNotFound()
    ensures ExtractJsonString("JSON.parse(\"\")") == None
  {
    var html := "JSON.parse(\"\")";
    forall i, q ensures !IsMatch(html, i, q) {
      if MarkerAt(html, i) {
        assert html[i] == 'J';
        assert i == 0;
      }
    }
  }

  // ---------------------------------------------------------------------
  // Decoding the literal
  // ---------------------------------------------------------------------

  function Min(a: int, b: int): int { if a <= b then a else b }
  function Max(a: int, b: int): int { if a >= b then a else b }

  /** The bounds of the context printed around a parse error at `pos` in a
      text of length `len`: 50 characters either side, cut at the ends. */
  function ErrorWindow(pos: nat, len: nat): (w: (int, int))
    ensures pos <= len ==> 0 <= w.0 <= pos <= w.1 <= len
    ensures pos <= len ==> w.1 - w.0 == Min(pos, 50) + Min(len - pos, 50)
    ensures w.1 - w.0 <= 100
  {
    (Max(pos - 50, 0), Min(pos + 50, len))
  }

  /** Python's `s[a:b]` for non-negative bounds. */
  function Slice(s: string, a: nat, b: nat): (r: string)
    ensures a <= b <= |s| ==> r == s[a..b]
    ensures |r| <= if a <= b then b - a else 0
  {
    var a', b' := Min(a, |s|), Min(b, |s|);
    if a' < b' then s[a'..b'] else []
  }

  /** The context printed around a parse error at `pos` in `doc`. */
  function ErrorContext(doc: string, pos: nat): (r: string)
    ensures pos <= |doc| ==> r == doc[pos - Min(pos, 50)..pos + Min(|doc| - pos, 50)]
    ensures |r| <= 100
  {
    var w := ErrorWindow(pos, |doc|);
    Slice(doc, w.0, w.1)
  }

  /** A parse error: the offset into the decoded text and the message. */
  datatype DecodeError = DecodeError(pos: nat, msg: string)

  /** What parsing a literal comes to. */
  datatype Parsed =
    | Loaded(data: Json)
      /** The parse error was caught: its offset, message and context are
          printed and nothing is returned. */
    | Rejected(pos: nat, msg: string, context: string)
      /** The unescaping failed; that exception is not the parse error the
          code catches, so it propagates. */
    | Raised

  /** Unescape the literal once, then parse it. `unescape` stands for the
      `unicode_escape` codec (`None` when it raises) and `loads` for the JSON
      parser; the error context is cut from the unescaped text. */
  function ParseJson(literal: string, unescape: string -> Option<string>,
                     loads: string -> Result<Json, DecodeError>): (r: Parsed)
    ensures r.Raised? <==> unescape(literal).None?
    ensures r.Loaded? <==> unescape(literal).Some? && loads(unescape(literal).value).Ok?
    ensures r.Loaded? ==> r.data == loads(unescape(literal).value).value
    ensures r.Rejected? ==>
      var doc := unescape(literal).value;
      && loads(doc) == Err(DecodeError(r.pos, r.msg))
      && |r.context| <= 100
      && (r.pos <= |doc| ==> r.context == doc[r.pos - Min(r.pos, 50)..r.pos + Min(|doc| - r.pos, 50)])
  {
    match unescape(literal)
    case None => Raised
    case Some(doc) =>
      match loads(doc)
      case Ok(data) => Loaded(data)
      case Err(e) => Rejected(e.pos, e.msg, ErrorContext(doc, e.pos))
  }
}
