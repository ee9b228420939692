/**
 The edit buffer (utils/editor/editor.go): the header of comment lines printed above an object, and
 ManualStrip, which removes comment lines again. Text is a sequence of Unicode characters.
 */
module Editor {
  import opened Strings

  const NEWLINE: char := '\n'

  /** unicode.IsSpace. */
  predicate IsSpace(c: char) {
    || '\t' <= c <= '\r' || c == ' ' || c == '\U{85}' || c == '\U{A0}' || c == '\U{1680}'
    || '\U{2000}' <= c <= '\U{200A}' || c == '\U{2028}' || c == '\U{2029}' || c == '\U{202F}'
    || c == '\U{205F}' || c == '\U{3000}'
  }

  function TrimLeft(s: string): string {
    if s != "" && IsSpace(s[0]) then TrimLeft(s[1..]) else s
  }

  function TrimRight(s: string): string {
    if s != "" && IsSpace(s[|s| - 1]) then TrimRight(s[..|s| - 1]) else s
  }

  function TrimSpace(s: string): string { TrimRight(TrimLeft(s)) }

  predicate IsComment(line: string) { "#" <= TrimSpace(line) }

  /** Trimming the right end cannot uncover or remove a leading mark. */
  lemma {:induction false} TrimRightKeepsMark(s: string)
    ensures "#" <= TrimRight(s) <==> "#" <= s
  {
    if s != "" && IsSpace(s[|s| - 1]) {
      TrimRightKeepsMark(s[..|s| - 1]);
    }
  }

  lemma MarkedIsComment(s: string)
    ensures IsComment("#" + s)
    ensures !IsComment("")
  {
    assert ("#" + s)[0] == '#' && !IsSpace('#');
    assert TrimLeft("#" + s) == "#" + s;
    TrimRightKeepsMark("#" + s);
  }

  // ---- ManualStrip -----------------------------------------------------------------------------

  /** What is kept of a list of lines, all but the last of which ended in a newline. */
  function Kept(lines: seq<string>): string {
    if lines == [] then ""
    else
      (if IsComment(lines[0]) then ""
       else if |lines| > 1 then lines[0] + [NEWLINE]
       else lines[0]) + Kept(lines[1..])
  }

  function Strip(file: string): string { Kept(Split(file, NEWLINE)) }

  method ManualStrip(file: string) returns (stripped: string)
    ensures stripped == Strip(file)
  {
    hide IsComment;
    stripped := "";
    var lines := Split(file, NEWLINE);
    for i := 0 to |lines|
      invariant stripped + Kept(lines[i..]) == Kept(lines)
    {
      var line := lines[i];
      assert lines[i..][1..] == lines[i + 1..];
      if IsComment(line) {
        continue;
      }
      stripped := stripped + line;
      if i < |lines| - 1 {
        stripped := stripped + [NEWLINE];
      }
    }
  }

  /** Stripping line by line. */
  lemma StripLine(line: string, rest: string)
    requires NEWLINE !in line
    ensures Strip(line + [NEWLINE] + rest) == (if IsComment(line) then "" else line + [NEWLINE]) + Strip(rest)
  {
    hide IsComment;
    SplitAfter(line, rest, NEWLINE);
    assert ([line] + Split(rest, NEWLINE))[1..] == Split(rest, NEWLINE);
  }

  ghost predicate NoComment(lines: seq<string>) {
    forall i :: 0 <= i < |lines| ==> !IsComment(lines[i])
  }

  lemma {:induction false} KeptHasNoComment(lines: seq<string>)
    requires forall i :: 0 <= i < |lines| ==> NEWLINE !in lines[i]
    ensures NoComment(Split(Kept(lines), NEWLINE))
  {
    hide IsComment;
    MarkedIsComment("");
    if lines != [] {
      KeptHasNoComment(lines[1..]);
      if IsComment(lines[0]) {
        assert Kept(lines) == Kept(lines[1..]);
      } else {
        if |lines| > 1 {
          SplitAfter(lines[0], Kept(lines[1..]), NEWLINE);
        } else {
          assert Kept(lines) == lines[0];
          SplitWhole(lines[0], NEWLINE);
        }
      }
    }
  }

  /** Stripping leaves no comment line. */
  lemma StripLeavesNoComment(file: string)
    ensures NoComment(Split(Strip(file), NEWLINE))
  {
    KeptHasNoComment(Split(file, NEWLINE));
  }

  lemma {:induction false} KeptIsShorter(lines: seq<string>)
    requires lines != []
    ensures if NoComment(lines) then Kept(lines) == Join(lines, NEWLINE) else |Kept(lines)| < |Join(lines, NEWLINE)|
  {
    if IsComment(lines[0]) {
      MarkedIsComment("");
    }
    hide IsComment;
    if |lines| > 1 {
      KeptIsShorter(lines[1..]);
      assert NoComment(lines) <==> !IsComment(lines[0]) && NoComment(lines[1..]);
    } else {
      assert Kept(lines[1..]) == "";
    }
  }

  /** Stripping changes exactly the texts that have a comment line. */
  lemma StripIdentity(file: string)
    ensures Strip(file) == file <==> NoComment(Split(file, NEWLINE))
  {
    JoinSplit(file, NEWLINE);
    KeptIsShorter(Split(file, NEWLINE));
  }

  lemma StripIdempotent(file: string)
    ensures Strip(Strip(file)) == Strip(file)
  {
    StripLeavesNoComment(file);
    StripIdentity(Strip(file));
  }

  // ---- The header ------------------------------------------------------------------------------

  datatype EditReason = EditReason(head: string, other: seq<string>)

  const PREAMBLE: seq<string> :=
    [" Please edit the object below." + " Lines beginning with a '#' will be ignored,",
     " and an empty file will abort the edit." + " If an error occurs while saving" + " this file will be",
     " reopened with the relevant failures.",
     ""]

  predicate OneLine(s: string) { NEWLINE !in s }

  predicate Printable(r: EditReason) {
    OneLine(r.head) && forall i :: 0 <= i < |r.other| ==> OneLine(r.other[i])
  }

  /** Every header line is the mark followed by some text. */
  function Marked(texts: seq<string>): string {
    if texts == [] then "" else "#" + texts[0] + [NEWLINE] + Marked(texts[1..])
  }

  function Details(other: seq<string>): seq<string> {
    if other == [] then [] else [" * " + other[0]] + Details(other[1..])
  }

  function ReasonTexts(r: EditReason): seq<string> {
    [" " + r.head + if |r.other| > 0 then ":" else ""] + Details(r.other) + [""]
  }

  function AllTexts(reasons: seq<EditReason>): seq<string> {
    if reasons == [] then [] else ReasonTexts(reasons[0]) + AllTexts(reasons[1..])
  }

  function Header(reasons: seq<EditReason>): string { Marked(PREAMBLE + AllTexts(reasons)) }

  lemma {:induction false} MarkedConcat(a: seq<string>, b: seq<string>)
    ensures Marked(a + b) == Marked(a) + Marked(b)
  {
    if a == [] {
      assert a + b == b;
    } else {
      assert (a + b)[1..] == a[1..] + b;
      MarkedConcat(a[1..], b);
    }
  }

  lemma MarkedNothing()
    ensures Marked([]) == ""
  {
  }

  /** EditHeader.WriteTo, as writes to a stream. */
  method WriteTo(reasons: seq<EditReason>) returns (w: string)
    ensures w == Header(reasons)
  {
    hide Marked, ReasonTexts;
    w := Marked(PREAMBLE);
    MarkedConcat(PREAMBLE, AllTexts(reasons));
    for i := 0 to |reasons|
      invariant w + Marked(AllTexts(reasons[i..])) == Header(reasons)
    {
      assert reasons[i..][1..] == reasons[i + 1..];
      MarkedConcat(ReasonTexts(reasons[i]), AllTexts(reasons[i + 1..]));
      var text := WriteReason(reasons[i]);
      w := w + text;
    }
    MarkedNothing();
  }

  function FirstLine(r: EditReason): string {
    "# " + r.head + if |r.other| > 0 then ":\n" else "\n"
  }

  lemma ReasonMarked(r: EditReason)
    ensures Marked(ReasonTexts(r)) == FirstLine(r) + Marked(Details(r.other)) + "#\n"
  {
    var head := " " + r.head + if |r.other| > 0 then ":" else "";
    assert FirstLine(r) == "#" + head + [NEWLINE] == Marked([head]);
    assert Marked([""]) == "#\n";
    MarkedConcat([head] + Details(r.other), [""]);
    MarkedConcat([head], Details(r.other));
  }

  lemma DetailMarked(other: seq<string>, i: nat)
    requires i < |other|
    ensures Marked(Details(other[i..])) == "# * " + other[i] + "\n" + Marked(Details(other[i + 1..]))
  {
    assert other[i..][1..] == other[i + 1..];
    assert "#" + (" * " + other[i]) + [NEWLINE] == "# * " + other[i] + "\n";
  }

  method WriteReason(r: EditReason) returns (w: string)
    ensures w == Marked(ReasonTexts(r))
  {
    hide Marked, Details, ReasonTexts;
    if |r.other| > 0 {
      w := "# " + r.head + ":\n";
    } else {
      w := "# " + r.head + "\n";
    }
    ReasonMarked(r);
    assert r.other[0..] == r.other && r.other[|r.other|..] == [];
    for i := 0 to |r.other|
      invariant w + Marked(Details(r.other[i..])) == FirstLine(r) + Marked(Details(r.other))
    {
      DetailMarked(r.other, i);
      w := w + "# * " + r.other[i] + "\n";
    }
    NoDetails();
    assert w == FirstLine(r) + Marked(Details(r.other));
    w := w + "#\n";
  }

  lemma NoDetails()
    ensures Marked(Details([])) == ""
  {
  }

  lemma {:induction false} MarkedStripped(texts: seq<string>, body: string)
    requires forall i :: 0 <= i < |texts| ==> OneLine(texts[i])
    ensures Strip(Marked(texts) + body) == Strip(body)
  {
    hide Strip, IsComment;
    if texts == [] {
      assert Marked(texts) + body == body;
    } else {
      var line, rest := "#" + texts[0], Marked(texts[1..]) + body;
      assert Marked(texts) + body == line + [NEWLINE] + rest;
      MarkedIsComment(texts[0]);
      StripLine(line, rest);
      MarkedStripped(texts[1..], body);
    }
  }

  lemma {:induction false} TextsAreLines(reasons: seq<EditReason>)
    requires forall i :: 0 <= i < |reasons| ==> Printable(reasons[i])
    ensures forall i :: 0 <= i < |AllTexts(reasons)| ==> OneLine(AllTexts(reasons)[i])
  {
    if reasons != [] {
      TextsAreLines(reasons[1..]);
      DetailsAreLines(reasons[0].other);
    }
  }

  lemma {:induction false} DetailsAreLines(other: seq<string>)
    requires forall i :: 0 <= i < |other| ==> OneLine(other[i])
    ensures forall i :: 0 <= i < |Details(other)| ==> OneLine(Details(other)[i])
  {
    if other != [] {
      DetailsAreLines(other[1..]);
    }
  }

  lemma PreambleFirst()
    ensures OneLine(" Please edit the object below." + " Lines beginning with a '#' will be ignored,")
  {
    assert OneLine(" Please edit the object below.");
    assert OneLine(" Lines beginning with a '#' will be ignored,");
  }

  lemma PreambleSecond()
    ensures OneLine(" and an empty file will abort the edit." + " If an error occurs while saving"
              + " this file will be")
  {
    assert OneLine(" and an empty file will abort the edit.");
    assert OneLine(" If an error occurs while saving");
    assert OneLine(" this file will be");
  }

  lemma PreambleThird()
    ensures OneLine(" reopened with the relevant failures.") && OneLine("")
  {
  }

  lemma PreambleIsLines()
    ensures forall i :: 0 <= i < |PREAMBLE| ==> OneLine(PREAMBLE[i])
  {
    hide OneLine;
    PreambleFirst();
    PreambleSecond();
    PreambleThird();
  }

  /** Stripping undoes header printing: whatever the reasons, the header leaves no trace. */
  lemma HeaderVanishes(reasons: seq<EditReason>, body: string)
    requires forall i :: 0 <= i < |reasons| ==> Printable(reasons[i])
    ensures Strip(Header(reasons) + body) == Strip(body)
  {
    TextsAreLines(reasons);
    PreambleIsLines();
    MarkedStripped(PREAMBLE + AllTexts(reasons), body);
  }
}
