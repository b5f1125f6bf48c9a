/** The one-pass JSONC stripper of deploy/devbox/box-models.py, proved equal to a two-pass
    reference: first remove the comments, then drop the trailing commas. */
module Jsonc {
  import opened Wrappers

  // ---------- scanning ----------

  predicate IsBlank(c: char) { c in " \t\r\n" }

  predicate AtLineComment(t: string) { |t| >= 2 && t[0] == '/' && t[1] == '/' }

  predicate AtBlockComment(t: string) { |t| >= 2 && t[0] == '/' && t[1] == '*' }

  /** Characters up to the first newline, the newline not included. */
  function LineLength(t: string): (n: nat)
    ensures n <= |t|
    ensures n < |t| ==> t[n] == '\n'
    ensures '\n' !in t[..n]
  {
    if t == "" || t[0] == '\n' then 0 else 1 + LineLength(t[1..])
  }

  /** Characters up to and including the first closing mark, or all of them. */
  function CloseLength(t: string): (n: nat)
    ensures n <= |t|
  {
    if t == "" then 0
    else if |t| >= 2 && t[0] == '*' && t[1] == '/' then 2
    else 1 + CloseLength(t[1..])
  }

  /** Length of the comment that starts `t`. */
  function CommentLength(t: string): (n: nat)
    requires AtLineComment(t) || AtBlockComment(t)
    ensures 2 <= n <= |t|
  {
    if AtLineComment(t) then LineLength(t) else 2 + CloseLength(t[2..])
  }

  /** Length of the rest of a string literal, from inside it to past its closing quote. */
  function BodyLength(t: string): (n: nat)
    ensures n <= |t|
  {
    if t == "" then 0
    else if t[0] == '\\' && |t| > 1 then 2 + BodyLength(t[2..])
    else if t[0] == '"' then 1
    else 1 + BodyLength(t[1..])
  }

  /** Length of the string literal that starts `t`. */
  function LiteralLength(t: string): (n: nat)
    requires t != "" && t[0] == '"'
    ensures 1 <= n <= |t|
  {
    1 + BodyLength(t[1..])
  }

  // ---------- the reference ----------

  function RemoveComments(t: string): string
    decreases |t|
  {
    if t == "" then ""
    else if t[0] == '"' then var n := LiteralLength(t); t[..n] + RemoveComments(t[n..])
    else if AtLineComment(t) || AtBlockComment(t) then RemoveComments(t[CommentLength(t)..])
    else [t[0]] + RemoveComments(t[1..])
  }

  /** The first character that is not a blank, as a string of length one, or "" at the end. */
  function FirstNonBlank(t: string): (r: string)
  {
    if t == "" then "" else if IsBlank(t[0]) then FirstNonBlank(t[1..]) else [t[0]]
  }

  predicate ClosesAfter(t: string) { FirstNonBlank(t) == "}" || FirstNonBlank(t) == "]" }

  function DropTrailingCommas(t: string): string
    decreases |t|
  {
    if t == "" then ""
    else if t[0] == '"' then var n := LiteralLength(t); t[..n] + DropTrailingCommas(t[n..])
    else if t[0] == ',' && ClosesAfter(t[1..]) then DropTrailingCommas(t[1..])
    else [t[0]] + DropTrailingCommas(t[1..])
  }

  function Reference(t: string): string { DropTrailingCommas(RemoveComments(t)) }

  // ---------- unfolding the reference one token at a time ----------

  /** A literal keeps its length when other text follows it. */
  lemma {:induction false} BodyThenText(t: string, rest: string)
    requires BodyLength(t) < |t|
    ensures BodyLength(t[..BodyLength(t)] + rest) == BodyLength(t)
    decreases |t|
  {
    var n := BodyLength(t);
    var s := t[..n] + rest;
    if t[0] == '\\' && |t| > 1 {
      BodyThenText(t[2..], rest);
      assert s[2..] == t[2..][..n - 2] + rest;
    } else if t[0] == '"' {
      assert s[0] == '"';
    } else {
      BodyThenText(t[1..], rest);
      assert s[1..] == t[1..][..n - 1] + rest;
    }
  }

  /** A literal that runs to the end of the text is all of it. */
  lemma {:induction false} BodyAlone(t: string)
    requires BodyLength(t) == |t|
    ensures BodyLength(t[..BodyLength(t)]) == |t|
  {
    assert t[..|t|] == t;
  }

  /** A literal at the start of a text stays the first token when other text follows it. */
  lemma LiteralThenText(t: string, rest: string)
    requires t != "" && t[0] == '"' && (LiteralLength(t) == |t| ==> rest == "")
    ensures
      var n, s := LiteralLength(t), t[..LiteralLength(t)] + rest;
      s[0] == '"' && LiteralLength(s) == n && s[..n] == t[..n] && s[n..] == rest
  {
    var n := LiteralLength(t);
    var s := t[..n] + rest;
    assert s[1..] == t[1..][..n - 1] + rest;
    if n < |t| {
      BodyThenText(t[1..], rest);
    } else {
      BodyAlone(t[1..]);
      assert s == t;
    }
  }

  lemma DropAfterLiteral(t: string, rest: string)
    requires t != "" && t[0] == '"'
    requires LiteralLength(t) == |t| ==> rest == ""
    ensures DropTrailingCommas(t[..LiteralLength(t)] + rest) == t[..LiteralLength(t)] + DropTrailingCommas(rest)
  {
    LiteralThenText(t, rest);
  }

  lemma ReferenceAtLiteral(t: string)
    requires t != "" && t[0] == '"'
    ensures Reference(t) == t[..LiteralLength(t)] + Reference(t[LiteralLength(t)..])
  {
    DropAfterLiteral(t, RemoveComments(t[LiteralLength(t)..]));
  }

  lemma ReferenceAtOther(t: string)
    requires t != "" && t[0] != '"' && !AtLineComment(t) && !AtBlockComment(t)
    ensures
      Reference(t) ==
      (if t[0] == ',' && ClosesAfter(RemoveComments(t[1..])) then "" else [t[0]]) + Reference(t[1..])
  {
    var s := RemoveComments(t);
    assert s == [t[0]] + RemoveComments(t[1..]);
    assert s[1..] == RemoveComments(t[1..]);
  }

  /** Where the lookahead stops, the comment-free text goes on with the same character. */
  lemma LookaheadStops(t: string)
    requires t == "" || (!IsBlank(t[0]) && !AtLineComment(t) && !AtBlockComment(t))
    ensures FirstNonBlank(RemoveComments(t)) == if t == "" then "" else [t[0]]
  {
    if t != "" {
      assert RemoveComments(t)[0] == t[0];
    }
  }

  lemma LookaheadBlank(t: string)
    requires t != "" && IsBlank(t[0])
    ensures FirstNonBlank(RemoveComments(t)) == FirstNonBlank(RemoveComments(t[1..]))
  {
    var s := RemoveComments(t);
    assert s == [t[0]] + RemoveComments(t[1..]);
    assert s[1..] == RemoveComments(t[1..]);
  }

  // ---------- the one-pass program ----------

  /** `text.find("\n", i)`, with the end of the text standing for "not found". */
  method LineEnd(text: string, i: nat) returns (end: nat)
    requires i <= |text|
    ensures end == i + LineLength(text[i..])
  {
    end := i;
    while end < |text| && text[end] != '\n'
      invariant i <= end <= |text|
      invariant i + LineLength(text[i..]) == end + LineLength(text[end..])
    {
      assert text[end..][1..] == text[end + 1..];
      end := end + 1;
    }
  }

  /** `text.find("*" + "/", i + 2) + 2`, with the end of the text standing for "not found". */
  method BlockEnd(text: string, i: nat) returns (end: nat)
    requires i + 2 <= |text|
    ensures end == i + 2 + CloseLength(text[i + 2..])
  {
    var k := i + 2;
    while k < |text| && !(k + 1 < |text| && text[k] == '*' && text[k + 1] == '/')
      invariant i + 2 <= k <= |text|
      invariant i + 2 + CloseLength(text[i + 2..]) == k + CloseLength(text[k..])
    {
      assert text[k..][1..] == text[k + 1..];
      k := k + 1;
    }
    end := if k < |text| then k + 2 else |text|;
  }

  /** The first character that counts, `j` characters into the text. */
  ghost function Ahead(text: string, j: nat): string
    requires j <= |text|
  {
    FirstNonBlank(RemoveComments(text[j..]))
  }

  lemma AheadOfBlank(text: string, j: nat)
    requires j < |text| && IsBlank(text[j])
    ensures Ahead(text, j) == Ahead(text, j + 1)
  {
    LookaheadBlank(text[j..]);
    assert text[j..][1..] == text[j + 1..];
  }

  lemma AheadOfComment(text: string, j: nat, end: nat)
    requires j < |text| && (AtLineComment(text[j..]) || AtBlockComment(text[j..]))
    requires end == j + CommentLength(text[j..])
    ensures Ahead(text, j) == Ahead(text, end)
  {
    assert text[j..][CommentLength(text[j..])..] == text[end..];
  }

  lemma AheadStops(text: string, j: nat)
    requires j <= |text|
    requires j == |text| || (!IsBlank(text[j]) && !AtLineComment(text[j..]) && !AtBlockComment(text[j..]))
    ensures Ahead(text, j) == if j == |text| then "" else [text[j]]
  {
    LookaheadStops(text[j..]);
  }

  /** A comment at `i`: where it ends. */
  method CommentEnd(text: string, i: nat) returns (end: nat)
    requires i + 1 < |text| && text[i] == '/' && (text[i + 1] == '/' || text[i + 1] == '*')
    ensures AtLineComment(text[i..]) || AtBlockComment(text[i..])
    ensures end == i + CommentLength(text[i..])
  {
    if text[i + 1] == '/' {
      end := LineEnd(text, i);
    } else {
      end := BlockEnd(text, i);
      assert text[i..][2..] == text[i + 2..];
    }
  }

  /** The lookahead after a comma at `start - 1`: is the comma a trailing one? */
  method IsTrailingComma(text: string, start: nat) returns (trailing: bool)
    requires start <= |text|
    ensures trailing <==> Ahead(text, start) == "}" || Ahead(text, start) == "]"
  {
    var j, n := start, |text|;
    while j < n
      invariant start <= j <= n && Ahead(text, start) == Ahead(text, j)
      decreases n - j
    {
      if IsBlank(text[j]) {
        AheadOfBlank(text, j);
        j := j + 1;
      } else if j + 1 < n && text[j] == '/' && (text[j + 1] == '/' || text[j + 1] == '*') {
        var end := CommentEnd(text, j);
        AheadOfComment(text, j, end);
        j := end;
      } else {
        break;
      }
    }
    AheadStops(text, j);
    trailing := j < n && (text[j] == '}' || text[j] == ']');
  }

  /** What is still to be produced from `t`, inside a string literal or outside it. */
  ghost function Remaining(t: string, inString: bool): string
  {
    if inString then var n := BodyLength(t); t[..n] + Reference(t[n..]) else Reference(t)
  }

  lemma SplitAt(t: string, k: nat, n: nat)
    requires k <= n <= |t|
    ensures t[..n] == t[..k] + t[k..][..n - k] && t[n..] == t[k..][n - k..]
  {
  }

  lemma RemainingInString(t: string)
    requires t != ""
    ensures t[0] == '\\' && |t| > 1 ==> Remaining(t, true) == t[..2] + Remaining(t[2..], true)
    ensures !(t[0] == '\\' && |t| > 1) ==> Remaining(t, true) == t[..1] + Remaining(t[1..], t[0] != '"')
  {
    var n := BodyLength(t);
    var k := if t[0] == '\\' && |t| > 1 then 2 else 1;
    SplitAt(t, k, n);
    Joined(t[..k], t[k..][..n - k], Reference(t[n..]));
    if t[0] == '"' {
      assert t[1..][..0] == "";
    }
  }

  lemma RemainingAtQuote(t: string)
    requires t != "" && t[0] == '"'
    ensures Remaining(t, false) == t[..1] + Remaining(t[1..], true)
  {
    var n := LiteralLength(t);
    ReferenceAtLiteral(t);
    SplitAt(t, 1, n);
    Joined(t[..1], t[1..][..n - 1], Reference(t[n..]));
  }

  /** Output and remainder add up to the reference. */
  ghost predicate Produced(text: string, out: string, i: nat, inString: bool)
  {
    i <= |text| && out + Remaining(text[i..], inString) == Reference(text)
  }

  lemma Moved(text: string, out: string, i: nat, inString: bool, k: nat, emitted: string, inString': bool)
    requires Produced(text, out, i, inString) && i + k <= |text|
    requires Remaining(text[i..], inString) == emitted + Remaining(text[i..][k..], inString')
    ensures Produced(text, out + emitted, i + k, inString')
  {
    assert text[i..][k..] == text[i + k..];
    Joined(out, emitted, Remaining(text[i + k..], inString'));
  }

  lemma KeepInString(text: string, out: string, i: nat)
    requires i < |text| && Produced(text, out, i, true)
    ensures text[i] == '\\' && i + 1 < |text| ==> Produced(text, out + [text[i], text[i + 1]], i + 2, true)
    ensures !(text[i] == '\\' && i + 1 < |text|) ==> Produced(text, out + [text[i]], i + 1, text[i] != '"')
  {
    RemainingInString(text[i..]);
    if text[i] == '\\' && i + 1 < |text| {
      assert text[i..][..2] == [text[i], text[i + 1]];
      Moved(text, out, i, true, 2, [text[i], text[i + 1]], true);
    } else {
      assert text[i..][..1] == [text[i]];
      Moved(text, out, i, true, 1, [text[i]], text[i] != '"');
    }
  }

  /** One turn inside a string literal. */
  method CopyInString(text: string, out: string, i: nat) returns (out': string, i': nat, inString: bool)
    requires i < |text| && Produced(text, out, i, true)
    ensures i < i' <= |text| && Produced(text, out', i', inString)
  {
    KeepInString(text, out, i);
    if text[i] == '\\' && i + 1 < |text| {
      return out + [text[i], text[i + 1]], i + 2, true;
    }
    return out + [text[i]], i + 1, text[i] != '"';
  }

  /** A comment is passed over. */
  lemma PassComment(text: string, out: string, i: nat, end: nat)
    requires i < |text| && (AtLineComment(text[i..]) || AtBlockComment(text[i..])) && Produced(text, out, i, false)
    requires end == i + CommentLength(text[i..])
    ensures Produced(text, out, end, false)
  {
    assert out + "" == out;
    assert "" + Remaining(text[end..], false) == Remaining(text[end..], false);
    assert text[i..][CommentLength(text[i..])..] == text[end..];
  }

  lemma KeepOrDrop(text: string, out: string, i: nat, trailing: bool)
    requires i < |text| && Produced(text, out, i, false)
    requires text[i] != '"' && !AtLineComment(text[i..]) && !AtBlockComment(text[i..])
    requires trailing <==> text[i] == ',' && (Ahead(text, i + 1) == "}" || Ahead(text, i + 1) == "]")
    ensures Produced(text, if trailing then out else out + [text[i]], i + 1, false)
  {
    assert text[i..][1..] == text[i + 1..];
    ReferenceAtOther(text[i..]);
    Moved(text, out, i, false, 1, if trailing then "" else [text[i]], false);
    assert out + "" == out;
  }

  /** One character outside strings and comments is kept, unless it is a trailing comma. */
  method CopyOutside(text: string, out: string, i: nat) returns (out': string)
    requires i < |text| && Produced(text, out, i, false)
    requires text[i] != '"' && !AtLineComment(text[i..]) && !AtBlockComment(text[i..])
    ensures Produced(text, out', i + 1, false)
  {
    var trailing := false;
    if text[i] == ',' {
      trailing := IsTrailingComma(text, i + 1);
    }
    KeepOrDrop(text, out, i, trailing);
    out' := if trailing then out else out + [text[i]];
  }

  /** One left-to-right pass over the text. */
  method StripJsonc(text: string) returns (out: string)
    ensures out == Reference(text)
  {
    out := "";
    var i, n := 0, |text|;
    var inString := false;
    assert text[0..] == text;
    while i < n
      invariant Produced(text, out, i, inString)
      decreases n - i
    {
      if inString {
        out, i, inString := CopyInString(text, out, i);
      } else if text[i] == '"' {
        RemainingAtQuote(text[i..]);
        assert text[i..][..1] == [text[i]];
        Moved(text, out, i, false, 1, [text[i]], true);
        inString := true;
        out := out + [text[i]];
        i := i + 1;
      } else if i + 1 < n && text[i] == '/' && (text[i + 1] == '/' || text[i + 1] == '*') {
        var end := CommentEnd(text, i);
        PassComment(text, out, i, end);
        i := end;
      } else {
        out := CopyOutside(text, out, i);
        i := i + 1;
      }
    }
    assert Remaining("", inString) == "";
  }

  // ---------- what the reference promises ----------

  /** The string literals of a text, in order; `comments` says whether comments are skipped. */
  function Literals(t: string, comments: bool): seq<string>
    decreases |t|
  {
    if t == "" then []
    else if t[0] == '"' then var n := LiteralLength(t); [t[..n]] + Literals(t[n..], comments)
    else if comments && (AtLineComment(t) || AtBlockComment(t)) then Literals(t[CommentLength(t)..], comments)
    else Literals(t[1..], comments)
  }

  lemma LiteralsAfterLiteral(t: string, rest: string)
    requires t != "" && t[0] == '"'
    requires LiteralLength(t) == |t| ==> rest == ""
    ensures Literals(t[..LiteralLength(t)] + rest, false) == [t[..LiteralLength(t)]] + Literals(rest, false)
  {
    LiteralThenText(t, rest);
  }

  /** Every string literal outside a comment survives, unchanged and in order, and none appears. */
  lemma {:induction false} StringsAreKept(t: string)
    ensures Literals(Reference(t), false) == Literals(t, true)
    decreases |t|
  {
    if t == "" {
    } else if t[0] == '"' {
      var n := LiteralLength(t);
      ReferenceAtLiteral(t);
      StringsAreKept(t[n..]);
      LiteralsAfterLiteral(t, Reference(t[n..]));
    } else if AtLineComment(t) || AtBlockComment(t) {
      StringsAreKept(t[CommentLength(t)..]);
    } else {
      ReferenceAtOther(t);
      StringsAreKept(t[1..]);
      if !(t[0] == ',' && ClosesAfter(RemoveComments(t[1..]))) {
        assert Reference(t)[1..] == Reference(t[1..]);
      }
    }
  }

  /** Does a comment or a trailing comma stand outside the string literals? */
  predicate NeedsStripping(t: string)
    decreases |t|
  {
    if t == "" then false
    else if t[0] == '"' then NeedsStripping(t[LiteralLength(t)..])
    else if AtLineComment(t) || AtBlockComment(t) then true
    else (t[0] == ',' && ClosesAfter(RemoveComments(t[1..]))) || NeedsStripping(t[1..])
  }

  lemma SameTail(head: string, x: string, y: string)
    ensures head + x == head + y <==> x == y
  {
    assert (head + x)[|head|..] == x && (head + y)[|head|..] == y;
  }

  ghost predicate PlainIsUnchanged(t: string)
  {
    |Reference(t)| <= |t| && (Reference(t) == t <==> !NeedsStripping(t))
  }

  lemma PlainBehind(head: string, rest: string)
    requires |Reference(rest)| <= |rest|
    ensures |head + Reference(rest)| <= |head + rest|
    ensures head + Reference(rest) == head + rest <==> Reference(rest) == rest
  {
    SameTail(head, Reference(rest), rest);
  }

  lemma PlainAtLiteral(t: string)
    requires t != "" && t[0] == '"' && PlainIsUnchanged(t[LiteralLength(t)..])
    ensures PlainIsUnchanged(t)
  {
    var head, rest := t[..LiteralLength(t)], t[LiteralLength(t)..];
    assert t == head + rest;
    assert Reference(t) == head + Reference(rest) by {
      ReferenceAtLiteral(t);
    }
    assert NeedsStripping(t) == NeedsStripping(rest);
    PlainBehind(head, rest);
  }

  lemma PlainAtOther(t: string)
    requires t != "" && t[0] != '"' && !AtLineComment(t) && !AtBlockComment(t) && PlainIsUnchanged(t[1..])
    ensures PlainIsUnchanged(t)
  {
    ReferenceAtOther(t);
    SameTail([t[0]], Reference(t[1..]), t[1..]);
    assert t == [t[0]] + t[1..];
  }

  /** Plain JSON passes through unchanged, and only such text does. */
  lemma {:induction false} UnchangedExactlyWhenPlain(t: string)
    ensures |Reference(t)| <= |t|
    ensures Reference(t) == t <==> !NeedsStripping(t)
    decreases |t|
  {
    if t == "" {
    } else if t[0] == '"' {
      UnchangedExactlyWhenPlain(t[LiteralLength(t)..]);
      PlainAtLiteral(t);
    } else if AtLineComment(t) || AtBlockComment(t) {
      UnchangedExactlyWhenPlain(t[CommentLength(t)..]);
    } else {
      UnchangedExactlyWhenPlain(t[1..]);
      PlainAtOther(t);
    }
  }

  // ---------- stripping twice ----------

  /** No comment starts outside the string literals. */
  predicate CommentFree(t: string)
    decreases |t|
  {
    if t == "" then true
    else if t[0] == '"' then CommentFree(t[LiteralLength(t)..])
    else !AtLineComment(t) && !AtBlockComment(t) && CommentFree(t[1..])
  }

  lemma {:induction false} CommentFreeStays(t: string)
    requires CommentFree(t)
    ensures RemoveComments(t) == t
    decreases |t|
  {
    if t == "" {
    } else if t[0] == '"' {
      var n := LiteralLength(t);
      CommentFreeStays(t[n..]);
      assert t == t[..n] + t[n..];
    } else {
      CommentFreeStays(t[1..]);
      assert t == [t[0]] + t[1..];
    }
  }

  /** Is what follows a literal free of comments, so is the whole. */
  lemma CommentFreeBehindLiteral(t: string, rest: string)
    requires t != "" && t[0] == '"' && (LiteralLength(t) == |t| ==> rest == "") && CommentFree(rest)
    ensures CommentFree(t[..LiteralLength(t)] + rest)
  {
    LiteralThenText(t, rest);
  }

  /** Removing comments brings none about. */
  lemma {:induction false} NoCommentAppears(t: string)
    ensures CommentFree(RemoveComments(t))
    decreases |t|
  {
    if t == "" {
    } else if t[0] == '"' {
      NoCommentAppears(t[LiteralLength(t)..]);
      CommentFreeBehindLiteral(t, RemoveComments(t[LiteralLength(t)..]));
    } else if AtLineComment(t) || AtBlockComment(t) {
      NoCommentAppears(t[CommentLength(t)..]);
    } else {
      NoCommentAppears(t[1..]);
      var r := RemoveComments(t);
      assert r[1..] == RemoveComments(t[1..]);
    }
  }

  /** Dropping commas keeps the first character, or leaves a blank or a closing bracket there. */
  lemma DropKeepsFirst(t: string)
    ensures
      var d := DropTrailingCommas(t);
      d == "" || (t != "" && (d[0] == t[0] || IsBlank(d[0]) || d[0] == '}' || d[0] == ']'))
  {
  }

  lemma {:induction false} DropBringsNoComment(t: string)
    requires CommentFree(t)
    ensures CommentFree(DropTrailingCommas(t))
    decreases |t|
  {
    if t == "" {
    } else if t[0] == '"' {
      DropBringsNoComment(t[LiteralLength(t)..]);
      CommentFreeBehindLiteral(t, DropTrailingCommas(t[LiteralLength(t)..]));
    } else {
      DropBringsNoComment(t[1..]);
      if !(t[0] == ',' && ClosesAfter(t[1..])) {
        var d := DropTrailingCommas(t);
        assert d[1..] == DropTrailingCommas(t[1..]);
        DropKeepsFirst(t[1..]);
      }
    }
  }

  /** Is there a trailing comma outside the string literals? */
  predicate HasTrailing(t: string)
    decreases |t|
  {
    if t == "" then false
    else if t[0] == '"' then HasTrailing(t[LiteralLength(t)..])
    else (t[0] == ',' && ClosesAfter(t[1..])) || HasTrailing(t[1..])
  }

  lemma {:induction false} DropsExactlyTrailing(t: string)
    ensures |DropTrailingCommas(t)| <= |t|
    ensures DropTrailingCommas(t) == t <==> !HasTrailing(t)
    decreases |t|
  {
    if t == "" {
    } else if t[0] == '"' {
      var n := LiteralLength(t);
      DropsExactlyTrailing(t[n..]);
      assert t == t[..n] + t[n..];
      SameTail(t[..n], DropTrailingCommas(t[n..]), t[n..]);
    } else {
      DropsExactlyTrailing(t[1..]);
      assert t == [t[0]] + t[1..];
      SameTail([t[0]], DropTrailingCommas(t[1..]), t[1..]);
    }
  }

  /** Blanks, and then a comma that is a trailing one. */
  predicate TrailingNext(t: string)
  {
    if t == "" then false
    else if IsBlank(t[0]) then TrailingNext(t[1..])
    else t[0] == ',' && ClosesAfter(t[1..])
  }

  /** Is there, outside the string literals, a comma with only blanks between it and a trailing one? */
  predicate StackedCommas(t: string)
    decreases |t|
  {
    if t == "" then false
    else if t[0] == '"' then StackedCommas(t[LiteralLength(t)..])
    else (t[0] == ',' && TrailingNext(t[1..])) || StackedCommas(t[1..])
  }

  lemma {:induction false} ClosedHasNoComma(t: string)
    requires ClosesAfter(t)
    ensures !TrailingNext(t)
  {
    if IsBlank(t[0]) {
      ClosedHasNoComma(t[1..]);
    }
  }

  /** After the trailing commas are gone, a bracket closes where it did, or where a trailing comma came first. */
  lemma {:induction false} ClosesAfterDropping(t: string)
    ensures ClosesAfter(DropTrailingCommas(t)) <==> ClosesAfter(t) || TrailingNext(t)
    decreases |t|
  {
    if t != "" && t[0] != '"' {
      ClosesAfterDropping(t[1..]);
      if !(t[0] == ',' && ClosesAfter(t[1..])) {
        var d := DropTrailingCommas(t);
        assert d == [t[0]] + DropTrailingCommas(t[1..]);
        assert d[1..] == DropTrailingCommas(t[1..]);
      }
    }
  }

  lemma {:induction false} TrailingAfterDropping(t: string)
    ensures HasTrailing(DropTrailingCommas(t)) <==> StackedCommas(t)
    decreases |t|
  {
    if t == "" {
    } else if t[0] == '"' {
      var n := LiteralLength(t);
      TrailingAfterDropping(t[n..]);
      LiteralThenText(t, DropTrailingCommas(t[n..]));
    } else {
      TrailingAfterDropping(t[1..]);
      ClosesAfterDropping(t[1..]);
      if t[0] == ',' && ClosesAfter(t[1..]) {
        ClosedHasNoComma(t[1..]);
      } else {
        var d := DropTrailingCommas(t);
        assert d == [t[0]] + DropTrailingCommas(t[1..]);
        assert d[1..] == DropTrailingCommas(t[1..]);
      }
    }
  }

  /** A second pass changes nothing, exactly when, comments aside, no comma stands directly before a trailing one. */
  lemma StrippingTwiceExactlyWhen(t: string)
    ensures Reference(Reference(t)) == Reference(t) <==> !StackedCommas(RemoveComments(t))
  {
    var s := RemoveComments(t);
    NoCommentAppears(t);
    DropBringsNoComment(s);
    CommentFreeStays(Reference(t));
    DropsExactlyTrailing(Reference(t));
    TrailingAfterDropping(s);
  }

  /** Of two commas before a bracket one pass drops the second, and the next pass the first. */
  lemma StrippingTwiceCanDropMore()
    ensures Reference(",,]") == ",]" && StackedCommas(RemoveComments(",,]"))
  {
    var t, u := ",]", ",,]";
    assert t[1..] == "]" && u[1..] == ",]";
    ReferenceAtOther("]");
    ReferenceAtOther(t);
    ReferenceAtOther(u);
    assert RemoveComments("]") == "]";
    assert RemoveComments(t) == t;
    assert RemoveComments(u) == u;
    assert FirstNonBlank("]") == "]" && FirstNonBlank(t) == ",";
  }

  // ---------- the rules, character by character ----------

  /** A line comment runs up to the first newline, or to the end of the text. */
  lemma {:induction false} LineIsFirst(t: string, n: nat)
    requires n <= |t| && '\n' !in t[..n] && (n < |t| ==> t[n] == '\n')
    ensures LineLength(t) == n
  {
    if n > 0 {
      assert t[..n][0] == t[0] && t[..n][1..] == t[1..][..n - 1];
      LineIsFirst(t[1..], n - 1);
    }
  }

  /** The rest of a block comment runs past the first closing mark. */
  lemma {:induction false} CloseIsFirst(t: string, k: nat)
    requires k + 1 < |t| && t[k] == '*' && t[k + 1] == '/'
    requires forall i, j :: 0 <= i < k && j == i + 1 ==> t[i] != '*' || t[j] != '/'
    ensures CloseLength(t) == k + 2
  {
    if k > 0 {
      CloseIsFirst(t[1..], k - 1);
    }
  }

  /** And to the end of the text when there is none. */
  lemma {:induction false} CloseOfNone(t: string)
    requires forall i, j :: 0 <= i < j < |t| && j == i + 1 ==> t[i] != '*' || t[j] != '/'
    ensures CloseLength(t) == |t|
  {
    if t != "" {
      CloseOfNone(t[1..]);
    }
  }

  /** The rest of a literal, by its first character: a backslash takes the next character along, and
      the first quote that is not taken along ends it. */
  lemma LiteralGoesOn(t: string)
    ensures t == "" ==> BodyLength(t) == 0
    ensures |t| > 1 && t[0] == '\\' ==> BodyLength(t) == 2 + BodyLength(t[2..])
    ensures t != "" && t[0] == '"' ==> BodyLength(t) == 1
    ensures t != "" && t[0] != '"' && (t[0] == '\\' ==> |t| == 1) ==> BodyLength(t) == 1 + BodyLength(t[1..])
  {
  }

  /** Where a comment that starts `t` ends: before the first newline, or past the first closing mark,
      or with the text. */
  lemma CommentEndsAt(t: string, n: nat)
    requires |t| >= 2 && t[0] == '/' && 2 <= n <= |t|
    requires
      (t[1] == '/' && '\n' !in t[..n] && (n < |t| ==> t[n] == '\n')) ||
      (t[1] == '*' && (forall i, j :: 2 <= i < j < n - 1 && j == i + 1 ==> t[i] != '*' || t[j] != '/') &&
       n >= 4 && t[n - 2] == '*' && t[n - 1] == '/') ||
      (t[1] == '*' && (forall i, j :: 2 <= i < j < n && j == i + 1 ==> t[i] != '*' || t[j] != '/') && n == |t|)
    ensures CommentLength(t) == n
  {
    if t[1] == '/' {
      LineIsFirst(t, n);
    } else if n >= 4 && t[n - 2] == '*' && t[n - 1] == '/' {
      CloseIsFirst(t[2..], n - 4);
    } else {
      CloseOfNone(t[2..]);
    }
  }

  /** What stripping does to the first character: a literal is kept, a comment goes, a comma goes when
      the next character that counts closes an object or a list, and anything else is kept. */
  lemma StripsByFirstCharacter(t: string)
    requires t != ""
    ensures t[0] == '"' ==>
      var n := 1 + BodyLength(t[1..]);
      Reference(t) == t[..n] + Reference(t[n..])
    ensures t[0] == '/' && |t| > 1 && (t[1] == '/' || t[1] == '*') ==>
      Reference(t) == Reference(t[CommentLength(t)..])
    ensures t[0] == ',' ==>
      Reference(t) ==
      if ClosesAfter(RemoveComments(t[1..])) then Reference(t[1..]) else [','] + Reference(t[1..])
    ensures t[0] != '"' && t[0] != ',' && (t[0] == '/' ==> |t| == 1 || (t[1] != '/' && t[1] != '*')) ==>
      Reference(t) == [t[0]] + Reference(t[1..])
  {
    if t[0] == '"' {
      ReferenceAtLiteral(t);
    } else if !AtLineComment(t) && !AtBlockComment(t) {
      ReferenceAtOther(t);
    }
  }

  /** The next character that counts: neither a space, a tab, a return or a newline, nor in a comment. */
  lemma ClosesByFirstCharacter(t: string)
    ensures t == "" ==> !ClosesAfter(RemoveComments(t))
    ensures t != "" && (t[0] == ' ' || t[0] == '\t' || t[0] == '\r' || t[0] == '\n') ==>
      (ClosesAfter(RemoveComments(t)) <==> ClosesAfter(RemoveComments(t[1..])))
    ensures |t| > 1 && t[0] == '/' && (t[1] == '/' || t[1] == '*') ==>
      (ClosesAfter(RemoveComments(t)) <==> ClosesAfter(RemoveComments(t[CommentLength(t)..])))
    ensures
      t != "" && t[0] != ' ' && t[0] != '\t' && t[0] != '\r' && t[0] != '\n' &&
      (t[0] == '/' ==> |t| == 1 || (t[1] != '/' && t[1] != '*')) ==>
        (ClosesAfter(RemoveComments(t)) <==> t[0] == '}' || t[0] == ']')
  {
    if t != "" && IsBlank(t[0]) {
      LookaheadBlank(t);
    } else if t == "" || (!AtLineComment(t) && !AtBlockComment(t)) {
      LookaheadStops(t);
    }
  }
}
