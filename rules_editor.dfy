// The admin editor for the game rules: a Markdown-like preview (one block per
// line, classified by its leading marker, with `**bold**` runs inside) and
// the unsaved-changes flag that drives the save button.
module RulesEditor {
  import opened Wrappers
  import opened Text

  // ---- inline bold runs ----

  /** The longest prefix of `s` without a `*`. */
  function NonStarRun(s: string): (r: string)
    ensures '*' !in r && StartsWith(s, r)
    ensures |r| < |s| ==> s[|r|] == '*'
  {
    if s == [] || s[0] == '*' then ""
    else [s[0]] + NonStarRun(s[1..])
  }

  lemma {:induction false} NonStarRunLength(s: string, k: nat)
    requires k < |s| && s[k] == '*' && '*' !in s[..k]
    ensures |NonStarRun(s)| == k
  {
    if k > 0 {
      assert s[0] == s[..k][0];
      assert s[1..][..k - 1] == s[..k][1..];
      NonStarRunLength(s[1..], k - 1);
    }
  }

  /** `**`, one or more characters other than `*`, `**`: what the pattern `\*\*[^*]+\*\*` matches. */
  predicate IsBoldToken(t: string)
  {
    |t| >= 5 && t[..2] == "**" && t[|t| - 2..] == "**" && '*' !in t[2..|t| - 2]
  }

  /** The length of the match at the start of `s`, or 0 when the pattern does not match there. */
  function MatchLen(s: string): (m: nat)
    ensures m == 0 || (m <= |s| && IsBoldToken(s[..m]))
  {
    if |s| >= 2 && s[0] == '*' && s[1] == '*' then
      var run := NonStarRun(s[2..]);
      if |run| >= 1 && 4 + |run| <= |s| && s[2 + |run|] == '*' && s[3 + |run|] == '*' then
        var m := 4 + |run|;
        assert s[..m][2..m - 2] == run;
        assert s[..m][..2] == "**";
        assert s[..m][m - 2..] == "**";
        m
      else 0
    else 0
  }

  /** A bold run at the start of `s` is exactly what the matcher finds there. */
  lemma BoldTokenAtStartIsMatched(s: string, m: nat)
    requires m <= |s| && IsBoldToken(s[..m])
    ensures MatchLen(s) == m
  {
    var t := s[..m];
    assert s[0] == t[..2][0] && s[1] == t[..2][1];
    var x := s[2..];
    assert x[..m - 4] == t[2..m - 2];
    assert x[m - 4] == t[m - 2..][0];
    NonStarRunLength(x, m - 4);
    assert s[3 + (m - 4)] == t[m - 2..][1];
  }

  /**
   * `text.split(/(\*\*[^*]+\*\*)/g)` with `pending` the plain text gathered so far:
   * plain and bold pieces alternate, starting and ending with a (possibly empty) plain piece.
   */
  function Tokens(s: string, pending: string): (r: seq<string>)
    ensures |r| % 2 == 1
    ensures forall i :: 0 <= i < |r| && i % 2 == 1 ==> IsBoldToken(r[i])
    decreases |s|
  {
    if s == [] then [pending]
    else
      var m := MatchLen(s);
      if m > 0 then [pending, s[..m]] + Tokens(s[m..], "")
      else Tokens(s[1..], pending + [s[0]])
  }

  function Concat(parts: seq<string>): string
  {
    if parts == [] then "" else parts[0] + Concat(parts[1..])
  }

  lemma ConcatPrefix(a: string, b: string, rest: seq<string>)
    ensures Concat([a, b] + rest) == a + b + Concat(rest)
  {
    var r := [a, b] + rest;
    assert r[1..] == [b] + rest;
    assert r[1..][1..] == rest;
  }

  /** The pieces put back together give the text. */
  lemma {:induction false} TokensConcat(s: string, pending: string)
    ensures Concat(Tokens(s, pending)) == pending + s
    decreases |s|
  {
    if s == [] {
      assert Concat([pending]) == pending + Concat([]);
    } else if MatchLen(s) > 0 {
      TokensConcat(s[MatchLen(s)..], "");
      ConcatAfterMatch(s, pending);
    } else {
      TokensConcat(s[1..], pending + [s[0]]);
      assert pending + [s[0]] + s[1..] == pending + s;
    }
  }

  /** A bold run at the front is split off as the second piece. */
  lemma TokensAtMatch(s: string, pending: string)
    requires MatchLen(s) > 0
    ensures Tokens(s, pending) == [pending, s[..MatchLen(s)]] + Tokens(s[MatchLen(s)..], "")
  {
  }

  /** The step of TokensConcat past a bold run. */
  lemma ConcatAfterMatch(s: string, pending: string)
    requires MatchLen(s) > 0
    requires Concat(Tokens(s[MatchLen(s)..], "")) == s[MatchLen(s)..]
    ensures Concat(Tokens(s, pending)) == pending + s
  {
    var m := MatchLen(s);
    TokensAtMatch(s, pending);
    ConcatPrefix(pending, s[..m], Tokens(s[m..], ""));
    SplitAt(s, m);
  }

  lemma SplitAt(s: string, m: nat)
    requires m <= |s|
    ensures s[..m] + s[m..] == s
  {
  }

  /** No position of `pending` starts a match in `pending + s`. */
  ghost predicate NoMatchIn(pending: string, s: string)
  {
    forall i :: 0 <= i < |pending| ==> MatchLen((pending + s)[i..]) == 0
  }

  /** A text without a bold run in any of its substrings. */
  ghost predicate Plain(t: string)
  {
    forall i, j :: 0 <= i <= j <= |t| ==> !IsBoldToken(t[i..j])
  }

  /** The plain pieces hold no bold run: the split takes every match, leftmost first. */
  lemma {:induction false} TokensPlainPieces(s: string, pending: string)
    requires NoMatchIn(pending, s)
    ensures forall i :: 0 <= i < |Tokens(s, pending)| && i % 2 == 0 ==> Plain(Tokens(s, pending)[i])
    decreases |s|
  {
    var r := Tokens(s, pending);
    if s == [] {
      PendingIsPlain(pending, s);
    } else {
      var m := MatchLen(s);
      if m > 0 {
        PendingIsPlain(pending, s);
        TokensPlainPieces(s[m..], "");
        var rest := Tokens(s[m..], "");
        assert r == [pending, s[..m]] + rest;
        forall i | 0 <= i < |r| && i % 2 == 0 ensures Plain(r[i]) {
          if i >= 2 {
            assert r[i] == rest[i - 2];
          }
        }
      } else {
        var p := pending + [s[0]];
        assert p + s[1..] == pending + s;
        forall i | 0 <= i < |p| ensures MatchLen((p + s[1..])[i..]) == 0 {
          if i == |pending| {
            assert (pending + s)[i..] == s;
          }
        }
        TokensPlainPieces(s[1..], p);
      }
    }
  }

  lemma PendingIsPlain(pending: string, s: string)
    requires NoMatchIn(pending, s)
    ensures Plain(pending)
  {
    forall i, j | 0 <= i <= j <= |pending| ensures !IsBoldToken(pending[i..j]) {
      if IsBoldToken(pending[i..j]) {
        var x := (pending + s)[i..];
        assert x[..j - i] == pending[i..j];
        BoldTokenAtStartIsMatched(x, j - i);
        assert false;
      }
    }
  }

  datatype Inline = PlainText(text: string) | Bold(text: string)

  /** `part.slice(2, -2)`: empty when the part is shorter than four characters. */
  function Inner(part: string): (r: string)
    ensures |part| >= 4 ==> part[..2] + r + part[|part| - 2..] == part && |r| == |part| - 4
    ensures |part| < 4 ==> r == ""
  {
    if |part| >= 4 then part[2..|part| - 2] else ""
  }

  /** A piece is bold exactly when it starts and ends with `**`. */
  function Style(part: string): (r: Inline)
    ensures r.Bold? <==> StartsWith(part, "**") && EndsWith(part, "**")
    ensures r.PlainText? ==> r.text == part
    ensures r.Bold? ==> r.text == Inner(part)
  {
    if StartsWith(part, "**") && EndsWith(part, "**") then Bold(Inner(part)) else PlainText(part)
  }

  /** parseInlineStyles */
  function ParseInlineStyles(text: string): (r: seq<Inline>)
    ensures |r| == |Tokens(text, "")|
    ensures forall i :: 0 <= i < |r| ==> r[i] == Style(Tokens(text, "")[i])
  {
    var parts := Tokens(text, "");
    seq(|parts|, i requires 0 <= i < |parts| => Style(parts[i]))
  }

  /** A matched run renders bold with the text between the markers, which holds no `*`. */
  lemma BoldRunRendersInner(t: string)
    requires IsBoldToken(t)
    ensures Style(t) == Bold(t[2..|t| - 2]) && "**" + t[2..|t| - 2] + "**" == t && '*' !in Style(t).text
  {
    assert t[..2] == "**";
    assert t == t[..2] + t[2..|t| - 2] + t[|t| - 2..];
  }

  /** A lone `**` is no match, yet it starts and ends with `**` and so renders as an empty bold run. */
  lemma LoneMarkersRenderAsEmptyBold()
    ensures Tokens("**", "") == ["**"]
    ensures ParseInlineStyles("**") == [Bold("")]
  {
    assert NonStarRun("**"[2..]) == "";
    assert MatchLen("**") == 0;
    assert "**"[1..] == "*" && "" + ['*'] == "*";
    assert Tokens("**", "") == Tokens("*", "*");
    assert MatchLen("*") == 0;
    assert "*"[1..] == "" && "*" + ['*'] == "**";
    assert Tokens("*", "*") == Tokens("", "**");
  }

  // ---- line blocks ----

  datatype Block =
    | Heading1(content: seq<Inline>)
    | Heading2(content: seq<Inline>)
    | Heading3(content: seq<Inline>)
    | ListItem(content: seq<Inline>)
    | LineBreak
    | Paragraph(content: seq<Inline>)

  /** The four line markers exclude one another: each has its own character at index 0, 1 or 2. */
  lemma MarkersExclusive(line: string)
    ensures StartsWith(line, "# ") ==> !StartsWith(line, "## ") && !StartsWith(line, "### ") && !StartsWith(line, "- ")
    ensures StartsWith(line, "## ") ==> !StartsWith(line, "### ") && !StartsWith(line, "- ")
    ensures StartsWith(line, "### ") ==> !StartsWith(line, "- ")
  {
    if |line| >= 2 {
      assert line[..2][0] == line[0] && line[..2][1] == line[1];
    }
    if |line| >= 3 {
      assert line[..3][0] == line[0] && line[..3][1] == line[1] && line[..3][2] == line[2];
    }
    if |line| >= 4 {
      assert line[..4][2] == line[2];
    }
  }

  /** The first matching rule of renderMarkdown decides a line's block. */
  function Classify(line: string): (b: Block)
    ensures b.Heading1? <==> StartsWith(line, "# ")
    ensures b.Heading2? <==> StartsWith(line, "## ")
    ensures b.Heading3? <==> StartsWith(line, "### ")
    ensures b.ListItem? <==> StartsWith(line, "- ")
    ensures b.LineBreak? <==> (!StartsWith(line, "# ") && !StartsWith(line, "## ") && !StartsWith(line, "### ")
                               && !StartsWith(line, "- ") && AllWhitespace(line))
    ensures b.Heading1? ==> b.content == ParseInlineStyles(line[2..])
    ensures b.Heading2? ==> b.content == ParseInlineStyles(line[3..])
    ensures b.Heading3? ==> b.content == ParseInlineStyles(line[4..])
    ensures b.ListItem? ==> b.content == ParseInlineStyles(line[2..])
    ensures b.Paragraph? ==> b.content == ParseInlineStyles(line)
  {
    MarkersExclusive(line);
    TrimEmptyIffAllWhitespace(line);
    if StartsWith(line, "# ") then Heading1(ParseInlineStyles(line[2..]))
    else if StartsWith(line, "## ") then Heading2(ParseInlineStyles(line[3..]))
    else if StartsWith(line, "### ") then Heading3(ParseInlineStyles(line[4..]))
    else if StartsWith(line, "- ") then ListItem(ParseInlineStyles(line[2..]))
    else if Trim(line) == "" then LineBreak
    else Paragraph(ParseInlineStyles(line))
  }

  /** renderMarkdown: one block per `\n`-separated line. */
  function RenderMarkdown(text: string): (r: seq<Block>)
    ensures |r| == |Split(text, '\n')| == multiset(text)['\n'] + 1
    ensures forall i :: 0 <= i < |r| ==> r[i] == Classify(Split(text, '\n')[i])
  {
    SplitCount(text, '\n');
    var lines := Split(text, '\n');
    seq(|lines|, i requires 0 <= i < |lines| => Classify(lines[i]))
  }

  // ---- editor state ----

  /** The text being edited, the text last loaded or saved, and the settings row id. */
  datatype EditorState = EditorState(content: string, original: string, settingsId: Option<string>)

  predicate HasChanges(st: EditorState)
  {
    st.content != st.original
  }

  /** The save button is disabled while saving or without changes. */
  predicate SaveEnabled(st: EditorState, saving: bool)
  {
    !saving && HasChanges(st)
  }

  /** The stored row: its id and its rules_content column. */
  datatype RulesRow = RulesRow(id: string, rulesContent: Option<string>)

  /** fetchRules; `defaultRules` is the built-in rules text. A failed load leaves the empty initial state. */
  function Loaded(response: Result<Option<RulesRow>, string>, defaultRules: string): (st: EditorState)
    ensures response.Failure? ==> st == EditorState("", "", None)
    ensures response.Success? && response.value.None? ==> st == EditorState(defaultRules, "", None)
    ensures response.Success? && response.value.Some? ==>
      var row := response.value.value;
      st.settingsId == Some(row.id)
      && (row.rulesContent.Some? && row.rulesContent.value != "" ==>
            st.content == row.rulesContent.value && st.original == row.rulesContent.value)
      && (row.rulesContent.None? || row.rulesContent.value == "" ==> st.content == defaultRules && st.original == "")
  {
    if response.Failure? then EditorState("", "", None)
    else if response.value.None? then EditorState(defaultRules, "", None)
    else
      var row := response.value.value;
      var stored := if row.rulesContent.Some? then row.rulesContent.value else "";
      EditorState(if stored != "" then stored else defaultRules, stored, Some(row.id))
  }

  /** Stored rules load unchanged; empty or missing rules load the default text as an unsaved change. */
  lemma LoadedChangesIffDefaultShown(response: Result<Option<RulesRow>, string>, defaultRules: string)
    requires response.Success? && defaultRules != ""
    ensures HasChanges(Loaded(response, defaultRules)) <==>
      response.value.None? || response.value.value.rulesContent.None? || response.value.value.rulesContent.value == ""
  {
  }

  const PlaceholderKey := "placeholder-key-please-update-in-settings"

  datatype RulesWrite =
    | UpdateRules(id: string, rulesContent: string)
    | InsertRules(rulesContent: string, qrSecretKey: string)

  /** handleSave writes into the existing row, or creates one with a placeholder QR key. */
  function SaveWrite(st: EditorState): (w: RulesWrite)
    ensures w.rulesContent == st.content
    ensures w.UpdateRules? <==> st.settingsId.Some?
    ensures w.UpdateRules? ==> w.id == st.settingsId.value
    ensures w.InsertRules? ==> w.qrSecretKey == PlaceholderKey
  {
    if st.settingsId.Some? then UpdateRules(st.settingsId.value, st.content)
    else InsertRules(st.content, PlaceholderKey)
  }

  /** After the write: on success the content becomes the original. */
  function AfterSave(st: EditorState, writeError: Option<string>): (r: EditorState)
    ensures writeError.None? ==> !HasChanges(r) && r.content == st.content
    ensures writeError.Some? ==> r == st
    ensures r.settingsId == st.settingsId
  {
    if writeError.None? then st.(original := st.content) else st
  }
}
