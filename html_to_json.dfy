/** The batch that turns each saved restaurant page `htmls/<name>.html` into
    `jsons/<name>.json`: the file-name filter and rewrite, the per-file
    skip-or-save control flow, and the loop over the directory listing.
    Reading a page is the parameter `read`; writing a document is recorded
    in the processor's `written` map. */
module HtmlToJson {
  import opened Wrappers
  import opened Json
  import opened JsonExtract

  // ---------------------------------------------------------------------
  // File names
  // ---------------------------------------------------------------------

  /** `.html` occurs in `s` at offset `k`. */
  predicate HtmlAt(s: string, k: int)
  {
    0 <= k && k + 5 <= |s| && s[k..k + 5] == ".html"
  }

  /** `name.endswith(".html")` */
  predicate EndsWithHtml(name: string)
    ensures EndsWithHtml(name) <==> exists stem :: name == stem + ".html"
  {
    if HtmlAt(name, |name| - 5) then
      assert name == name[..|name| - 5] + ".html";
      true
    else
      false
  }

  /** `name.replace(".html", ".json")`: every occurrence, scanning from the left. */
  function ReplaceHtml(s: string): (r: string)
    decreases |s|
    ensures |r| == |s|
  {
    if HtmlAt(s, 0) then ".json" + ReplaceHtml(s[5..])
    else if s == [] then []
    else [s[0]] + ReplaceHtml(s[1..])
  }

  /** Offset `k` lies inside an occurrence of `.html`. */
  predicate Covered(s: string, k: int)
  {
    HtmlAt(s, k) || HtmlAt(s, k - 1) || HtmlAt(s, k - 2) || HtmlAt(s, k - 3) || HtmlAt(s, k - 4)
  }

  lemma HtmlAtShift(s: string, n: nat, m: int)
    requires n <= |s|
    ensures HtmlAt(s[n..], m) <==> m >= 0 && HtmlAt(s, m + n)
  {
    if m >= 0 && m + 5 <= |s| - n {
      assert s[n..][m..m + 5] == s[m + n..m + n + 5];
    }
  }

  /** Two occurrences of `.html` never overlap. */
  lemma HtmlAtApart(s: string, k: int, d: int)
    requires HtmlAt(s, k) && 1 <= d < 5
    ensures !HtmlAt(s, k + d)
  {
    assert s[k + d] == s[k..k + 5][d];
  }

  /** `.json` stands in `r` at every occurrence of `.html` in `s`. */
  ghost predicate JsonWhereHtml(s: string, r: string)
    requires |r| == |s|
  {
    forall k :: HtmlAt(s, k) ==> r[k..k + 5] == ".json"
  }

  /** `r` agrees with `s` at every offset outside an occurrence of `.html`. */
  ghost predicate KeptWhereUncovered(s: string, r: string)
    requires |r| == |s|
  {
    forall k :: 0 <= k < |s| && !Covered(s, k) ==> r[k] == s[k]
  }

  /** The rewrite step for a name starting with `.html`: occurrences. */
  lemma JsonWhereHtmlAtHtml(s: string)
    requires HtmlAt(s, 0)
    requires JsonWhereHtml(s[5..], ReplaceHtml(s[5..]))
    ensures JsonWhereHtml(s, ReplaceHtml(s))
  {
    var r, t := ReplaceHtml(s), s[5..];
    assert r == ".json" + ReplaceHtml(t);
    forall k | HtmlAt(s, k) ensures r[k..k + 5] == ".json" {
      if 1 <= k < 5 {
        HtmlAtApart(s, 0, k);
      } else if k >= 5 {
        HtmlAtShift(s, 5, k - 5);
        assert r[k..k + 5] == ReplaceHtml(t)[k - 5..k];
      }
    }
  }

  /** The rewrite step for a name starting with `.html`: other characters. */
  lemma KeptWhereUncoveredAtHtml(s: string)
    requires HtmlAt(s, 0)
    requires KeptWhereUncovered(s[5..], ReplaceHtml(s[5..]))
    ensures KeptWhereUncovered(s, ReplaceHtml(s))
  {
    var r, t := ReplaceHtml(s), s[5..];
    assert r == ".json" + ReplaceHtml(t);
    forall k | 0 <= k < |s| && !Covered(s, k) ensures r[k] == s[k] {
      assert k >= 5;
      HtmlAtShift(s, 5, k - 5);
      HtmlAtShift(s, 5, k - 6);
      HtmlAtShift(s, 5, k - 7);
      HtmlAtShift(s, 5, k - 8);
      HtmlAtShift(s, 5, k - 9);
      assert !Covered(t, k - 5);
    }
  }

  /** The rewrite step for a name not starting with `.html`: occurrences. */
  lemma JsonWhereHtmlElsewhere(s: string)
    requires s != [] && !HtmlAt(s, 0)
    requires JsonWhereHtml(s[1..], ReplaceHtml(s[1..]))
    ensures JsonWhereHtml(s, ReplaceHtml(s))
  {
    var r, t := ReplaceHtml(s), s[1..];
    assert r == [s[0]] + ReplaceHtml(t);
    forall k | HtmlAt(s, k) ensures r[k..k + 5] == ".json" {
      HtmlAtShift(s, 1, k - 1);
      var u := ReplaceHtml(t);
      assert u[k - 1..k + 4] == ".json";
      SliceAfterHead(s[0], u, k - 1);
    }
  }

  /** Dropping a one-character head shifts every slice by one. */
  lemma SliceAfterHead(c: char, u: string, m: nat)
    requires m + 5 <= |u|
    ensures ([c] + u)[m + 1..m + 6] == u[m..m + 5]
  {
  }

  /** The rewrite step for a name not starting with `.html`: other characters. */
  lemma KeptWhereUncoveredElsewhere(s: string)
    requires s != [] && !HtmlAt(s, 0)
    requires KeptWhereUncovered(s[1..], ReplaceHtml(s[1..]))
    ensures KeptWhereUncovered(s, ReplaceHtml(s))
  {
    var r, t := ReplaceHtml(s), s[1..];
    assert r == [s[0]] + ReplaceHtml(t);
    forall k | 0 <= k < |s| && !Covered(s, k) ensures r[k] == s[k] {
      if k >= 1 {
        HtmlAtShift(s, 1, k - 1);
        HtmlAtShift(s, 1, k - 2);
        HtmlAtShift(s, 1, k - 3);
        HtmlAtShift(s, 1, k - 4);
        HtmlAtShift(s, 1, k - 5);
        assert !Covered(t, k - 1);
      }
    }
  }

  /** The rewrite puts `.json` at every occurrence of `.html` and leaves
      every other character where it was. */
  lemma {:induction false} ReplaceHtmlSpec(s: string)
    ensures forall k :: HtmlAt(s, k) ==> ReplaceHtml(s)[k..k + 5] == ".json"
    ensures forall k :: 0 <= k < |s| && !Covered(s, k) ==> ReplaceHtml(s)[k] == s[k]
    decreases |s|
  {
    if HtmlAt(s, 0) {
      ReplaceHtmlSpec(s[5..]);
      JsonWhereHtmlAtHtml(s);
      KeptWhereUncoveredAtHtml(s);
    } else if s != [] {
      ReplaceHtmlSpec(s[1..]);
      JsonWhereHtmlElsewhere(s);
      KeptWhereUncoveredElsewhere(s);
    }
  }

  /** A page name `x.html` becomes the document name `x.json`. */
  lemma JsonNameOfHtmlName(name: string)
    requires EndsWithHtml(name)
    ensures |ReplaceHtml(name)| == |name|
    ensures ReplaceHtml(name)[|name| - 5..] == ".json"
  {
    ReplaceHtmlSpec(name);
  }

  /** A name without `.html` is left as it is. */
  lemma ReplaceHtmlIdentity(name: string)
    requires forall k :: !HtmlAt(name, k)
    ensures ReplaceHtml(name) == name
  {
    ReplaceHtmlSpec(name);
  }

  // ---------------------------------------------------------------------
  // One file
  // ---------------------------------------------------------------------

  /** What processing one page comes to. */
  datatype FileOutcome =
    | NotFound   // no literal in the page: a skip message is printed
    | Unparsable(pos: nat, msg: string, context: string)   // the parse error is printed
    | NullDocument   // the literal parses to `null`, which reads as "nothing parsed": skipped
    | Saved(name: string, data: Json)   // the document is written to `jsons/<name>`
    | Aborted    // the unescaping raised, and the exception propagates

  /** The skip-or-save decision for the page `filename` with text `html`.
      A document that is JSON `null` is Python's `None`, which the caller
      takes for a failed parse. */
  function FileStep(filename: string, html: string, unescape: string -> Option<string>,
                    loads: string -> Result<Json, DecodeError>): (r: FileOutcome)
    ensures r.NotFound? <==> ExtractJsonString(html).None?
    ensures r.Saved? <==>
      ExtractJsonString(html).Some? && unescape(ExtractJsonString(html).value).Some?
      && loads(unescape(ExtractJsonString(html).value).value).Ok?
      && loads(unescape(ExtractJsonString(html).value).value).value != JNull
    ensures r.Saved? ==>
      r.name == ReplaceHtml(filename) && r.data == loads(unescape(ExtractJsonString(html).value).value).value
      && r.data != JNull
    ensures r.NullDocument? <==>
      ExtractJsonString(html).Some? && unescape(ExtractJsonString(html).value).Some?
      && loads(unescape(ExtractJsonString(html).value).value) == Ok(JNull)
    ensures r.Unparsable? <==>
      ExtractJsonString(html).Some? && unescape(ExtractJsonString(html).value).Some?
      && loads(unescape(ExtractJsonString(html).value).value).Err?
    ensures r.Unparsable? ==> ParseJson(ExtractJsonString(html).value, unescape, loads) == Rejected(r.pos, r.msg, r.context)
    ensures r.Aborted? <==> ExtractJsonString(html).Some? && unescape(ExtractJsonString(html).value).None?
  {
    match ExtractJsonString(html)
    case None => NotFound
    case Some(literal) =>
      match ParseJson(literal, unescape, loads)
      case Raised => Aborted
      case Rejected(pos, msg, context) => Unparsable(pos, msg, context)
      case Loaded(data) => if data == JNull then NullDocument else Saved(ReplaceHtml(filename), data)
  }

  /** A page whose literal parses to `null` writes nothing. */
  lemma NullDocumentNotSaved(pre: string, s: string, post: string, filename: string,
                             unescape: string -> Option<string>, loads: string -> Result<Json, DecodeError>)
    requires |s| >= 1 && ShortestGroup(s)
    requires NoMatchBefore(pre + Marker + s + "\")" + post, |pre|)
    requires unescape(s).Some? && loads(unescape(s).value) == Ok(JNull)
    ensures FileStep(filename, pre + Marker + s + "\")" + post, unescape, loads) == NullDocument
  {
    ExtractOfSplit(pre, s, post);
  }

  // ---------------------------------------------------------------------
  // The directory
  // ---------------------------------------------------------------------

  /** The documents written and whether an exception ended the batch, after
      the listing `entries` from state `w`. */
  function RunAll(w: map<string, Json>, directory: string, entries: seq<string>,
                  read: (string, string) -> string, unescape: string -> Option<string>,
                  loads: string -> Result<Json, DecodeError>): (r: (map<string, Json>, bool))
    decreases |entries|
    ensures w.Keys <= r.0.Keys
  {
    if entries == [] then (w, false)
    else
      BatchStep(RunAll(w, directory, entries[..|entries| - 1], read, unescape, loads),
                directory, entries[|entries| - 1], read, unescape, loads)
  }

  /** One iteration of the loop over the listing, from the documents written
      so far and whether an exception has ended the batch. */
  function BatchStep(state: (map<string, Json>, bool), directory: string, name: string,
                     read: (string, string) -> string, unescape: string -> Option<string>,
                     loads: string -> Result<Json, DecodeError>): (r: (map<string, Json>, bool))
    ensures state.1 || !EndsWithHtml(name) ==> r == state
    ensures r.1 <==> state.1 || (EndsWithHtml(name) && FileStep(name, read(directory, name), unescape, loads).Aborted?)
    ensures state.0.Keys <= r.0.Keys <= state.0.Keys + {ReplaceHtml(name)}
    ensures forall n :: n in state.0 && n != ReplaceHtml(name) ==> r.0[n] == state.0[n]
  {
    var (w, aborted) := state;
    if aborted || !EndsWithHtml(name) then state
    else
      match FileStep(name, read(directory, name), unescape, loads)
      case Aborted => (w, true)
      case Saved(n, data) => (w[n := data], false)
      case _ => (w, false)
  }

  lemma RunAllStep(w: map<string, Json>, directory: string, entries: seq<string>,
                   read: (string, string) -> string, unescape: string -> Option<string>,
                   loads: string -> Result<Json, DecodeError>, i: nat)
    requires i < |entries|
    ensures RunAll(w, directory, entries[..i + 1], read, unescape, loads)
            == BatchStep(RunAll(w, directory, entries[..i], read, unescape, loads), directory, entries[i],
                         read, unescape, loads)
  {
    assert entries[..i + 1][..i] == entries[..i];
  }

  /** An entry whose name does not end in `.html` is passed over: it writes
      nothing and cannot end the batch. */
  lemma RunAllSkipsOther(w: map<string, Json>, directory: string, entries: seq<string>, e: string,
                         read: (string, string) -> string, unescape: string -> Option<string>,
                         loads: string -> Result<Json, DecodeError>)
    requires !EndsWithHtml(e)
    ensures RunAll(w, directory, entries + [e], read, unescape, loads)
            == RunAll(w, directory, entries, read, unescape, loads)
  {
    assert (entries + [e])[..|entries|] == entries;
  }

  /** The entries of a listing whose names end in `.html`, in listing order. */
  function HtmlEntries(entries: seq<string>): (r: seq<string>)
    decreases |entries|
    ensures forall k :: 0 <= k < |r| ==> EndsWithHtml(r[k]) && r[k] in entries
    ensures forall e :: e in entries && EndsWithHtml(e) ==> e in r
  {
    if entries == [] then []
    else
      var init, last := entries[..|entries| - 1], entries[|entries| - 1];
      assert entries == init + [last];
      if EndsWithHtml(last) then HtmlEntries(init) + [last] else HtmlEntries(init)
  }

  /** The batch over a listing is the batch over its `.html` entries alone:
      the other entries have no effect at all. */
  lemma {:induction false} RunAllOnlyHtml(w: map<string, Json>, directory: string, entries: seq<string>,
                                          read: (string, string) -> string, unescape: string -> Option<string>,
                                          loads: string -> Result<Json, DecodeError>)
    ensures RunAll(w, directory, entries, read, unescape, loads)
            == RunAll(w, directory, HtmlEntries(entries), read, unescape, loads)
    decreases |entries|
  {
    if entries != [] {
      var init, last := entries[..|entries| - 1], entries[|entries| - 1];
      RunAllOnlyHtml(w, directory, init, read, unescape, loads);
      var before := RunAll(w, directory, init, read, unescape, loads);
      if EndsWithHtml(last) {
        var h := HtmlEntries(init) + [last];
        assert HtmlEntries(entries) == h;
        assert h[..|h| - 1] == HtmlEntries(init) && h[|h| - 1] == last;
        assert RunAll(w, directory, h[..|h| - 1], read, unescape, loads) == before;
      } else {
        assert HtmlEntries(entries) == HtmlEntries(init);
        assert RunAll(w, directory, entries, read, unescape, loads) == before;
      }
    }
  }

  /** Once an exception ends the batch, later entries change nothing. */
  lemma {:induction false} RunAllAbortStays(w: map<string, Json>, directory: string, entries: seq<string>,
                                            read: (string, string) -> string, unescape: string -> Option<string>,
                                            loads: string -> Result<Json, DecodeError>, i: nat)
    requires i <= |entries|
    requires RunAll(w, directory, entries[..i], read, unescape, loads).1
    ensures RunAll(w, directory, entries, read, unescape, loads)
            == RunAll(w, directory, entries[..i], read, unescape, loads)
    decreases |entries| - i
  {
    if i < |entries| {
      RunAllStep(w, directory, entries, read, unescape, loads, i);
      RunAllAbortStays(w, directory, entries, read, unescape, loads, i + 1);
    } else {
      assert entries[..i] == entries;
    }
  }

  /** Only pages named `*.html` are processed: every document the batch
      writes or replaces is named after such an entry, with `.html`
      rewritten. */
  lemma {:induction false} WrittenNamesFromHtmlEntries(w: map<string, Json>, directory: string, entries: seq<string>,
                                                       read: (string, string) -> string,
                                                       unescape: string -> Option<string>,
                                                       loads: string -> Result<Json, DecodeError>)
    ensures var w' := RunAll(w, directory, entries, read, unescape, loads).0;
      w.Keys <= w'.Keys
      && forall n :: n in w' && (n !in w || w'[n] != w[n]) ==>
           exists e :: e in entries && EndsWithHtml(e) && n == ReplaceHtml(e)
    decreases |entries|
  {
    if entries != [] {
      var init, last := entries[..|entries| - 1], entries[|entries| - 1];
      WrittenNamesFromHtmlEntries(w, directory, init, read, unescape, loads);
      var s1 := RunAll(w, directory, init, read, unescape, loads);
      var w2 := BatchStep(s1, directory, last, read, unescape, loads).0;
      forall n | n in w2 && (n !in w || w2[n] != w[n])
        ensures exists e :: e in entries && EndsWithHtml(e) && n == ReplaceHtml(e)
      {
        if n == ReplaceHtml(last) && w2 != s1.0 {
          assert EndsWithHtml(last) && last in entries;
        } else {
          assert n in s1.0 && w2[n] == s1.0[n];
          var e :| e in init && EndsWithHtml(e) && n == ReplaceHtml(e);
          assert e in entries;
        }
      }
    }
  }

  class HtmlToJsonProcessor {
    /** The base directory holding `htmls/` and `jsons/`. */
    var directory: string
    /** The documents this processor has written, by file name in `jsons/`;
        writing a name again replaces its document. */
    var written: map<string, Json>

    /** `directory or <the module's own directory>`: an absent or empty
        argument falls back to `moduleDir`. */
    constructor (directory: Option<string>, moduleDir: string)
      ensures this.directory == (if directory.Some? && directory.value != "" then directory.value else moduleDir)
      ensures written == map[]
    {
      this.directory := if directory.Some? && directory.value != "" then directory.value else moduleDir;
      written := map[];
    }

    /** Process one page: skip it when no literal is found or it does not
        parse, else write its document under the rewritten name. */
    method ProcessFile(filename: string, read: (string, string) -> string,
                       unescape: string -> Option<string>, loads: string -> Result<Json, DecodeError>)
      returns (outcome: FileOutcome)
      modifies this`written
      ensures outcome == FileStep(filename, read(directory, filename), unescape, loads)
      ensures written == if outcome.Saved? then old(written)[outcome.name := outcome.data] else old(written)
    {
      var htmlContent := read(directory, filename);
      var jsonString := ExtractJsonString(htmlContent);
      if jsonString.None? {
        return NotFound;
      }
      var parsed := ParseJson(jsonString.value, unescape, loads);
      if parsed.Raised? {
        return Aborted;
      }
      if parsed.Rejected? {
        return Unparsable(parsed.pos, parsed.msg, parsed.context);
      }
      if parsed.data == JNull {
        return NullDocument;
      }
      var outputName := ReplaceHtml(filename);
      written := written[outputName := parsed.data];
      return Saved(outputName, parsed.data);
    }

    /** Process every listed entry whose name ends in `.html`, in listing
        order; `aborted` reports an exception that ended the batch. */
    method ProcessAllHtmlFiles(entries: seq<string>, read: (string, string) -> string,
                               unescape: string -> Option<string>, loads: string -> Result<Json, DecodeError>)
      returns (aborted: bool)
      modifies this`written
      ensures (written, aborted) == RunAll(old(written), directory, entries, read, unescape, loads)
    {
      var i := 0;
      while i < |entries|
        invariant 0 <= i <= |entries|
        invariant RunAll(old(written), directory, entries[..i], read, unescape, loads) == (written, false)
      {
        RunAllStep(old(written), directory, entries, read, unescape, loads, i);
        if EndsWithHtml(entries[i]) {
          var outcome := ProcessFile(entries[i], read, unescape, loads);
          if outcome.Aborted? {
            RunAllAbortStays(old(written), directory, entries, read, unescape, loads, i + 1);
            return true;
          }
        }
        i := i + 1;
      }
      assert entries[..i] == entries;
      return false;
    }
  }
}
