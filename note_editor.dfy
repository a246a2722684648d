/** The LaTeX notes client's editor (`Notes_Latex/client/src/components/NoteEditor.js`):
    inserting a LaTeX snippet over the textarea's selection, and the live
    preview that shows each "label: formula" line as a label and a formula. */
module NoteEditor {
  import opened Wrappers
  import opened Text
  import NotesApp

  /** The part of the textarea element the insertion reads and moves. */
  class Textarea {
    var selectionStart: nat
    var selectionEnd: nat

    constructor (start: nat, end: nat)
      ensures selectionStart == start && selectionEnd == end
    {
      selectionStart := start;
      selectionEnd := end;
    }
  }

  /** `content.slice(0, start) + latex + content.slice(end)`. */
  function Splice(content: string, start: nat, end: nat, latex: string): (r: string)
    ensures start <= end <= |content| ==> r == content[..start] + latex + content[end..]
  {
    Slice(content, 0, start) + latex + SliceFrom(content, end)
  }

  /** For a selection inside the content, the text before the selection and
      after it is kept, the snippet sits at `start`, and the length changes by
      the snippet's length less the selection's. */
  lemma SpliceShape(content: string, start: nat, end: nat, latex: string)
    requires start <= end <= |content|
    ensures |Splice(content, start, end, latex)| == |content| - (end - start) + |latex|
    ensures Splice(content, start, end, latex)[..start] == content[..start]
    ensures Splice(content, start, end, latex)[start..start + |latex|] == latex
    ensures Splice(content, start, end, latex)[start + |latex|..] == content[end..]
  {
    var r := Splice(content, start, end, latex);
    assert r == content[..start] + latex + content[end..];
    assert r[..start] == content[..start];
  }

  /** Inserting with a collapsed cursor and then deleting the inserted text
      gives the content back. */
  lemma SpliceUndo(content: string, at: nat, latex: string)
    requires at <= |content|
    ensures Splice(Splice(content, at, at, latex), at, at + |latex|, "") == content
  {
    SpliceShape(content, at, at, latex);
    var r := Splice(content, at, at, latex);
    assert Splice(r, at, at + |latex|, "") == r[..at] + r[at + |latex|..];
    assert content == content[..at] + content[at..];
  }

  /** What the editor area shows. */
  datatype Screen = Placeholder | Editing(note: NotesApp.Note, preview: seq<PreviewRow>)

  /** With no note only the placeholder is shown; otherwise the note and
      the preview of its content. */
  function ScreenFor(note: Option<NotesApp.Note>): (s: Screen)
    ensures s.Placeholder? <==> note.None?
    ensures s.Editing? ==> s.note == note.value && |s.preview| == Count(note.value.content, '\n') + 1
  {
    match note
    case None => Placeholder
    case Some(n) =>
      PreviewRowCount(n.content);
      Editing(n, Preview(n.content))
  }

  /** `handleInsertLatex`: without a textarea nothing happens. Otherwise the
      note with the spliced content goes to `onChange` and the cursor is
      placed right after the snippet. Returns the changed note, if any. */
  method HandleInsertLatex(note: NotesApp.Note, textarea: Textarea?, latex: string) returns (changed: Option<NotesApp.Note>)
    modifies textarea
    ensures textarea == null ==> changed == None
    ensures textarea != null ==>
      changed == Some(note.(content := Splice(note.content, old(textarea.selectionStart), old(textarea.selectionEnd), latex)))
    ensures textarea != null ==>
      textarea.selectionStart == textarea.selectionEnd == old(textarea.selectionStart) + |latex|
  {
    if textarea == null {
      return None;
    }
    var start := textarea.selectionStart;
    var end := textarea.selectionEnd;
    changed := Some(note.(content := Splice(note.content, start, end, latex)));
    textarea.selectionStart := start + |latex|;
    textarea.selectionEnd := start + |latex|;
  }

  /** After an insertion over a selection inside the content, the text just
      before the new cursor is the snippet, and only the note's content has
      changed. */
  method InsertThenCursor(note: NotesApp.Note, start: nat, end: nat, latex: string)
    returns (changed: NotesApp.Note, cursor: nat)
    requires start <= end <= |note.content|
    ensures cursor == start + |latex| <= |changed.content|
    ensures changed.content[start..cursor] == latex
    ensures changed.id == note.id && changed.title == note.title
  {
    var textarea := new Textarea(start, end);
    var result := HandleInsertLatex(note, textarea, latex);
    changed := result.value;
    cursor := textarea.selectionStart;
    SpliceShape(note.content, start, end, latex);
  }

  /** One preview row: a labelled formula, or a plain line. */
  datatype PreviewRow = MathRow(caption: string, math: string) | TextRow(line: string)

  /** A line with a ':' is a label up to and including the first ':' and a
      formula made of the rest, trimmed; any other line is shown as is. */
  function ParseLine(line: string): (row: PreviewRow)
    ensures row.TextRow? <==> ':' !in line
    ensures row.TextRow? ==> row.line == line
    ensures row.MathRow? ==>
      |row.caption| >= 1 && row.caption[|row.caption| - 1] == ':' && ':' !in row.caption[..|row.caption| - 1]
    ensures row.MathRow? ==> StartsWith(line, row.caption) && row.math == Trim(line[|row.caption|..])
  {
    var colon := IndexOf(line, ':');
    if colon != -1 then
      MathRow(Slice(line, 0, colon + 1), Trim(SliceFrom(line, colon + 1)))
    else TextRow(line)
  }

  /** `content.split('\n').map(...)`: one row per line. */
  function Preview(content: string): (rows: seq<PreviewRow>)
    ensures |rows| == |Split(content, '\n')|
    ensures forall i :: 0 <= i < |rows| ==> rows[i] == ParseLine(Split(content, '\n')[i])
  {
    var lines := Split(content, '\n');
    seq(|lines|, i requires 0 <= i < |lines| => ParseLine(lines[i]))
  }

  /** The preview has one row more than the content has line breaks. */
  lemma PreviewRowCount(content: string)
    ensures |Preview(content)| == Count(content, '\n') + 1
  {
    SplitShape(content, '\n');
  }

  /** A prefix of `s` followed by the rest of `s` is `s`. */
  lemma PrefixThenRest(s: string, p: string)
    requires StartsWith(s, p)
    ensures p + s[|p|..] == s
  {
    assert s[..|p|] + s[|p|..] == s;
  }

  /** The label of a formula row, followed by the untrimmed rest, is the
      source line again. */
  lemma LabelRestoresLine(line: string)
    requires ParseLine(line).MathRow?
    ensures ParseLine(line).caption + line[|ParseLine(line).caption|..] == line
  {
    var row := ParseLine(line);
    PrefixThenRest(line, row.caption);
  }
}
