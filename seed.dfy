/** The catalog seeder: tab-separated avatar and voice tables, one row per
    line after a header line, turned into catalog records. Reading the files
    and inserting the records are left to the caller; `content` is a file's
    text. */
module Seed {
  import opened Common

  datatype Avatar = Avatar(id: string, name: string, gender: string, version: string)

  datatype Voice = Voice(id: string, name: string, gender: string, language: string,
                         languageCode: string, nativeName: string)

  /** `line.trim() === ''`, stated as "whitespace only", which is the same
      thing (`Common.TrimEmptyIffAllSpace`). */
  predicate Blank(line: string) {
    AllSpace(line)
  }

  /** The lines of the file that are not blank, in file order. */
  function NonBlankLines(lines: seq<string>): (r: seq<string>)
    ensures |r| <= |lines|
    ensures forall k :: 0 <= k < |r| ==> !Blank(r[k])
    ensures forall k :: 0 <= k < |lines| && !Blank(lines[k]) ==> lines[k] in r
  {
    if lines == [] then []
    else (if !Blank(lines[0]) then [lines[0]] else []) + NonBlankLines(lines[1..])
  }

  function FileLines(content: string): seq<string> {
    NonBlankLines(Split(content, '\n'))
  }

  /** An avatar row: at least four tab-separated fields read in order as
      name, gender, version and id, each trimmed; kept when id and name are
      not empty. */
  function AvatarOfLine(line: string): (r: Option<Avatar>)
    ensures |Split(line, '\t')| < 4 ==> r.None?
    ensures r.Some? ==> r.value.id != "" && r.value.name != ""
    ensures r.Some? ==> var parts := Split(line, '\t');
      r.value == Avatar(Trim(parts[3]), Trim(parts[0]), Trim(parts[1]), Trim(parts[2]))
    ensures |Split(line, '\t')| >= 4 && Trim(Split(line, '\t')[0]) != "" && Trim(Split(line, '\t')[3]) != "" ==> r.Some?
  {
    var parts := Split(line, '\t');
    if |parts| >= 4 && Trim(parts[3]) != "" && Trim(parts[0]) != ""
    then Some(Avatar(Trim(parts[3]), Trim(parts[0]), Trim(parts[1]), Trim(parts[2])))
    else None
  }

  /** A voice row: at least six fields read in order as language, native
      name, language code, gender, name and id, each trimmed; kept when id
      and name are not empty. */
  function VoiceOfLine(line: string): (r: Option<Voice>)
    ensures |Split(line, '\t')| < 6 ==> r.None?
    ensures r.Some? ==> r.value.id != "" && r.value.name != ""
    ensures r.Some? ==> var parts := Split(line, '\t');
      r.value == Voice(Trim(parts[5]), Trim(parts[4]), Trim(parts[3]), Trim(parts[0]), Trim(parts[2]), Trim(parts[1]))
    ensures |Split(line, '\t')| >= 6 && Trim(Split(line, '\t')[4]) != "" && Trim(Split(line, '\t')[5]) != "" ==> r.Some?
  {
    var parts := Split(line, '\t');
    if |parts| >= 6 && Trim(parts[5]) != "" && Trim(parts[4]) != ""
    then Some(Voice(Trim(parts[5]), Trim(parts[4]), Trim(parts[3]), Trim(parts[0]), Trim(parts[2]), Trim(parts[1])))
    else None
  }

  /** The avatars of a run of data rows, in row order. */
  function AvatarsOf(rows: seq<string>): seq<Avatar> {
    if rows == [] then []
    else
      var last := AvatarOfLine(rows[|rows| - 1]);
      AvatarsOf(rows[..|rows| - 1]) + (if last.Some? then [last.value] else [])
  }

  function VoicesOf(rows: seq<string>): seq<Voice> {
    if rows == [] then []
    else
      var last := VoiceOfLine(rows[|rows| - 1]);
      VoicesOf(rows[..|rows| - 1]) + (if last.Some? then [last.value] else [])
  }

  /** The data rows: every line but the first. */
  function DataRows(lines: seq<string>): seq<string> {
    if lines == [] then [] else lines[1..]
  }

  /** The avatar loop: from the second non-blank line on, each accepted row
      is appended. */
  method ParseAvatars(content: string) returns (data: seq<Avatar>)
    ensures data == AvatarsOf(DataRows(FileLines(content)))
  {
    var lines := FileLines(content);
    data := [];
    if |lines| == 0 {
      return;
    }
    var i := 1;
    while i < |lines|
      invariant 1 <= i <= |lines|
      invariant data == AvatarsOf(lines[1..i])
    {
      var parts := Split(lines[i], '\t');
      if |parts| >= 4 {
        var name := Trim(parts[0]);
        var gender := Trim(parts[1]);
        var version := Trim(parts[2]);
        var id := Trim(parts[3]);
        if id != "" && name != "" {
          data := data + [Avatar(id, name, gender, version)];
        }
      }
      assert lines[1..i + 1][..i - 1] == lines[1..i];
      i := i + 1;
    }
    assert lines[1..i] == DataRows(lines);
  }

  /** The voice loop. */
  method ParseVoices(content: string) returns (data: seq<Voice>)
    ensures data == VoicesOf(DataRows(FileLines(content)))
  {
    var lines := FileLines(content);
    data := [];
    if |lines| == 0 {
      return;
    }
    var i := 1;
    while i < |lines|
      invariant 1 <= i <= |lines|
      invariant data == VoicesOf(lines[1..i])
    {
      var parts := Split(lines[i], '\t');
      if |parts| >= 6 {
        var language := Trim(parts[0]);
        var nativeName := Trim(parts[1]);
        var languageCode := Trim(parts[2]);
        var gender := Trim(parts[3]);
        var name := Trim(parts[4]);
        var id := Trim(parts[5]);
        if id != "" && name != "" {
          data := data + [Voice(id, name, gender, language, languageCode, nativeName)];
        }
      }
      assert lines[1..i + 1][..i - 1] == lines[1..i];
      i := i + 1;
    }
    assert lines[1..i] == DataRows(lines);
  }

  /** Rows are parsed independently and the output keeps their order. */
  lemma {:induction false} AvatarsOfAppend(a: seq<string>, b: seq<string>)
    ensures AvatarsOf(a + b) == AvatarsOf(a) + AvatarsOf(b)
    decreases |b|
  {
    if b != [] {
      AvatarsOfAppend(a, b[..|b| - 1]);
      assert (a + b)[..|a + b| - 1] == a + b[..|b| - 1];
    } else {
      assert a + b == a;
    }
  }

  lemma {:induction false} VoicesOfAppend(a: seq<string>, b: seq<string>)
    ensures VoicesOf(a + b) == VoicesOf(a) + VoicesOf(b)
    decreases |b|
  {
    if b != [] {
      VoicesOfAppend(a, b[..|b| - 1]);
      assert (a + b)[..|a + b| - 1] == a + b[..|b| - 1];
    } else {
      assert a + b == a;
    }
  }

  /** The header line never yields a record, whatever it holds. */
  lemma HeaderIgnored(header: string, other: string, rows: seq<string>)
    ensures AvatarsOf(DataRows([header] + rows)) == AvatarsOf(DataRows([other] + rows))
    ensures VoicesOf(DataRows([header] + rows)) == VoicesOf(DataRows([other] + rows))
  {
    assert ([header] + rows)[1..] == rows == ([other] + rows)[1..];
  }

  /** Every avatar record has a non-empty id and name and trimmed fields. */
  lemma {:induction false} AvatarsWellFormed(rows: seq<string>)
    ensures |AvatarsOf(rows)| <= |rows|
    ensures forall k :: 0 <= k < |AvatarsOf(rows)| ==>
      var a := AvatarsOf(rows)[k];
      a.id != "" && a.name != "" && Trim(a.id) == a.id && Trim(a.name) == a.name &&
      Trim(a.gender) == a.gender && Trim(a.version) == a.version
  {
    if rows != [] {
      AvatarsWellFormed(rows[..|rows| - 1]);
      var last := AvatarOfLine(rows[|rows| - 1]);
      if last.Some? {
        var parts := Split(rows[|rows| - 1], '\t');
        TrimIdempotent(parts[0]);
        TrimIdempotent(parts[1]);
        TrimIdempotent(parts[2]);
        TrimIdempotent(parts[3]);
      }
    }
  }

  /** Every voice record has a non-empty id and name and trimmed fields. */
  lemma {:induction false} VoicesWellFormed(rows: seq<string>)
    ensures |VoicesOf(rows)| <= |rows|
    ensures forall k :: 0 <= k < |VoicesOf(rows)| ==>
      var v := VoicesOf(rows)[k];
      v.id != "" && v.name != "" && Trim(v.id) == v.id && Trim(v.name) == v.name &&
      Trim(v.gender) == v.gender && Trim(v.language) == v.language &&
      Trim(v.languageCode) == v.languageCode && Trim(v.nativeName) == v.nativeName
  {
    if rows != [] {
      VoicesWellFormed(rows[..|rows| - 1]);
      var last := VoiceOfLine(rows[|rows| - 1]);
      if last.Some? {
        var parts := Split(rows[|rows| - 1], '\t');
        TrimIdempotent(parts[0]);
        TrimIdempotent(parts[1]);
        TrimIdempotent(parts[2]);
        TrimIdempotent(parts[3]);
        TrimIdempotent(parts[4]);
        TrimIdempotent(parts[5]);
      }
    }
  }

  /** Columns after the fourth do not change an avatar row. */
  lemma ExtraAvatarColumnsIgnored(line: string, extra: string)
    requires |Split(line, '\t')| >= 4
    ensures AvatarOfLine(line + "\t" + extra) == AvatarOfLine(line)
  {
    SplitAppend(line, extra, '\t');
    var p := Split(line, '\t');
    var q := Split(line + "\t" + extra, '\t');
    assert line + "\t" + extra == line + ['\t'] + extra;
    assert q[..4] == p[..4];
    assert q[0] == p[0] && q[1] == p[1] && q[2] == p[2] && q[3] == p[3];
  }

  /** Columns after the sixth do not change a voice row. */
  lemma ExtraVoiceColumnsIgnored(line: string, extra: string)
    requires |Split(line, '\t')| >= 6
    ensures VoiceOfLine(line + "\t" + extra) == VoiceOfLine(line)
  {
    SplitAppend(line, extra, '\t');
    var p := Split(line, '\t');
    var q := Split(line + "\t" + extra, '\t');
    assert line + "\t" + extra == line + ['\t'] + extra;
    assert q[0] == p[0] && q[1] == p[1] && q[2] == p[2] && q[3] == p[3] && q[4] == p[4] && q[5] == p[5];
  }

  /** A blank line anywhere in the file changes nothing: it is dropped before
      the header is chosen. */
  lemma BlankLinesDropped(before: seq<string>, blank: string, after: seq<string>)
    requires Blank(blank)
    ensures NonBlankLines(before + [blank] + after) == NonBlankLines(before + after)
  {
    var tail := [blank] + after;
    assert tail[1..] == after;
    assert NonBlankLines(tail) == NonBlankLines(after);
    assert before + [blank] + after == before + tail;
    NonBlankLinesAppend(before, tail);
    NonBlankLinesAppend(before, after);
  }

  lemma {:induction false} NonBlankLinesAppend(a: seq<string>, b: seq<string>)
    ensures NonBlankLines(a + b) == NonBlankLines(a) + NonBlankLines(b)
  {
    if a != [] {
      NonBlankLinesAppend(a[1..], b);
      assert (a + b)[1..] == a[1..] + b;
    } else {
      assert a + b == b;
    }
  }
}
