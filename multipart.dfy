/**
 * The multipart/form-data upload handling shared, line for line, by the two
 * reward servers (FlowRewardServer and OCPRewardServer): the request is split
 * at the boundary, every part with a Content-Disposition header and a file
 * name is saved, and the last saved file whose name mentions "config" becomes
 * the MATSim config of the simulation run that is queued.
 */
module Multipart {
  import opened Wrappers
  import opened Text

  // ---------------------------------------------------------------------------
  // extractFileName
  // ---------------------------------------------------------------------------

  /** The file name of one header line: third ';' field, text after its first '=', quotes dropped. */
  function NameOfLine(line: string): (r: Result<string>)
    ensures r.Ok? ==> Free(r.value, '"')
  {
    var fields := JavaSplit(line, ";");
    if |fields| <= 2 then Err(ArrayIndexOutOfBounds(2))
    else
      var kv := JavaSplit(fields[2], "=");
      if |kv| <= 1 then Err(ArrayIndexOutOfBounds(1))
      else
        RemoveCharGone(kv[1], '"');
        Ok(RemoveAll(kv[1], "\""))
  }

  /**
   * extractFileName: the name taken from the first line that contains
   * "filename"; Ok(None) (Java's null) when no line does; the exception of
   * the index lookups when that line has too few fields.
   */
  function ExtractFileName(lines: seq<string>): (r: Result<Option<string>>)
    ensures r == Ok(None) <==> forall i :: 0 <= i < |lines| ==> !Contains(lines[i], "filename")
    ensures r.Ok? && r.value.Some? ==> Free(r.value.value, '"')
  {
    if lines == [] then Ok(None)
    else if Contains(lines[0], "filename") then
      match NameOfLine(lines[0])
      case Ok(name) => Ok(Some(name))
      case Err(e) => Err(e)
    else
      var r := ExtractFileName(lines[1..]);
      assert forall i :: 1 <= i < |lines| ==> lines[i] == lines[1..][i - 1];
      r
  }

  /** The name comes from the first line mentioning "filename"; later lines are never looked at. */
  lemma {:induction false} FileNameFromFirstLine(lines: seq<string>, k: nat)
    requires k < |lines| && Contains(lines[k], "filename")
    requires forall j :: 0 <= j < k ==> !Contains(lines[j], "filename")
    ensures ExtractFileName(lines) == match NameOfLine(lines[k]) case Ok(n) => Ok(Some(n)) case Err(e) => Err(e)
  {
    if k > 0 {
      assert lines[1..][k - 1] == lines[k];
      FileNameFromFirstLine(lines[1..], k - 1);
    }
  }

  /** The Content-Disposition line a browser or the requests library sends for a file field. */
  function DispositionLine(field: string, file: string): string {
    "Content-Disposition: form-data; name=\"" + field + "\"; filename=\"" + file + "\""
  }

  /** Removing a character from c + f + c gives f when f does not contain c. */
  lemma {:induction false} RemoveAround(f: string, c: char)
    requires Free(f, c)
    ensures RemoveAll([c] + f + [c], [c]) == f
  {
    var s := [c] + f + [c];
    assert s[..1] == [c];
    assert s[1..] == f + [c];
    RemoveBefore(f, c);
  }

  lemma {:induction false} RemoveBefore(f: string, c: char)
    requires Free(f, c)
    ensures RemoveAll(f + [c], [c]) == f
  {
    var s := f + [c];
    if f == [] {
      assert s == [c];
      assert s[..1] == [c];
      assert s[1..] == [];
      assert RemoveAll(s, [c]) == RemoveAll([], [c]);
    } else {
      assert s[..1] == [f[0]];
      assert s[1..] == f[1..] + [c];
      RemoveBefore(f[1..], c);
      assert f == [f[0]] + f[1..];
    }
  }

  /** Joining three fields with one delimiter character. */
  lemma JoinThree(a: string, b: string, c: string, d: char)
    ensures Join([a, b, c], [d]) == a + [d] + b + [d] + c
  {
    assert [a, b, c][1..] == [b, c];
    JoinTwo(b, c, d);
    assert Join([a, b, c], [d]) == a + [d] + (b + [d] + c);
  }

  lemma JoinTwo(a: string, b: string, d: char)
    ensures Join([a, b], [d]) == a + [d] + b
  {
    assert [a, b][1..] == [b];
  }

  lemma FreeConcat(a: string, b: string, c: char)
    requires Free(a, c) && Free(b, c)
    ensures Free(a + b, c)
  {
    forall i | 0 <= i < |a + b| ensures (a + b)[i] != c {
      if i >= |a| { assert (a + b)[i] == b[i - |a|]; }
    }
  }

  /** The three ';' fields of a Content-Disposition line. */
  lemma DispositionFields(field: string, file: string)
    requires Free(field, ';') && Free(file, ';')
    ensures JavaSplit(DispositionLine(field, file), ";")
      == ["Content-Disposition: form-data", " name=\"" + field + "\"", " filename=\"" + file + "\""]
  {
    var f0 := "Content-Disposition: form-data";
    var f1 := " name=\"" + field + "\"";
    var f2 := " filename=\"" + file + "\"";
    DispositionLineJoin(field, file);
    assert Free(f0, ';');
    FreeConcat(" name=\"", field, ';');
    FreeConcat(" name=\"" + field, "\"", ';');
    FreeConcat(" filename=\"", file, ';');
    FreeConcat(" filename=\"" + file, "\"", ';');
    SplitOfJoin([f0, f1, f2], ';');
  }

  /** A Content-Disposition line is its three fields joined by ';'. */
  lemma DispositionLineJoin(field: string, file: string)
    ensures DispositionLine(field, file)
      == Join(["Content-Disposition: form-data", " name=\"" + field + "\"", " filename=\"" + file + "\""], ";")
  {
    var f0 := "Content-Disposition: form-data";
    var f1 := " name=\"" + field + "\"";
    var f2 := " filename=\"" + file + "\"";
    JoinThree(f0, f1, f2, ';');
    var head := "Content-Disposition: form-data; name=\"";
    var mid := "\"; filename=\"";
    assert head == f0 + ";" + " name=\"";
    assert mid == "\"" + ";" + " filename=\"";
    assert DispositionLine(field, file) == head + field + mid + file + "\"";
  }

  /** The '=' fields of the filename field. */
  lemma FileNameFields(file: string)
    requires Free(file, '=')
    ensures JavaSplit(" filename=\"" + file + "\"", "=") == [" filename", "\"" + file + "\""]
  {
    var k0 := " filename";
    var k1 := "\"" + file + "\"";
    JoinTwo(k0, k1, '=');
    assert " filename=\"" + file + "\"" == Join([k0, k1], "=");
    assert Free(k0, '=');
    FreeConcat("\"", file, '=');
    FreeConcat("\"" + file, "\"", '=');
    SplitOfJoin([k0, k1], '=');
  }

  /**
   * Round trip: for a well-formed header line the name read back is the
   * file name that was sent, provided the name holds no ';', '=' or '"'.
   */
  lemma NameOfDispositionLine(field: string, file: string)
    requires Free(field, ';') && Free(file, ';') && Free(file, '=') && Free(file, '"')
    ensures NameOfLine(DispositionLine(field, file)) == Ok(file)
  {
    DispositionFields(field, file);
    FileNameFields(file);
    RemoveAround(file, '"');
  }

  // ---------------------------------------------------------------------------
  // extractFileContent
  // ---------------------------------------------------------------------------

  /**
   * extractFileContent: the text after the first blank line ("\r\n\r\n") up
   * to the last "\r\n--"; String.substring throws when that range is empty
   * backwards, e.g. when the closing delimiter is missing.
   */
  function ExtractFileContent(part: string): (r: Result<string>)
    ensures r.Ok? ==> |r.value| <= |part|
    ensures LastIndexOf(part, "\r\n--") < 0 ==> r.Err?
  {
    var start := IndexOf(part, "\r\n\r\n") + 4;
    var end := LastIndexOf(part, "\r\n--");
    if 0 <= start <= end <= |part| then Ok(part[start..end]) else Err(StringIndexOutOfBounds)
  }

  /** Header lines: every CR ends a line that is followed by another non-empty line. */
  predicate HeaderLines(h: string) {
    forall i :: 0 <= i < |h| && h[i] == '\r' ==> i + 2 < |h| && h[i + 1] == '\n' && h[i + 2] != '\r'
  }

  /**
   * Round trip: a part made of header lines, a blank line, the file content
   * and the closing "\r\n--" (nothing after it but text without a CR) gives
   * back exactly the content, whatever the content contains.
   */
  lemma ContentOfPart(header: string, content: string, trailer: string)
    requires HeaderLines(header) && Free(trailer, '\r')
    ensures ExtractFileContent(header + "\r\n\r\n" + content + "\r\n--" + trailer) == Ok(content)
  {
    var s := header + "\r\n\r\n" + content + "\r\n--" + trailer;
    var b := |header|;
    var e := b + 4 + |content|;
    assert s[b..b + 4] == "\r\n\r\n";
    assert OccursAt(s, "\r\n\r\n", b);
    forall j | 0 <= j < b ensures !OccursAt(s, "\r\n\r\n", j) {
      assert s[j..j + 4][2] == s[j + 2];
      assert s[j] == header[j];
      if header[j] == '\r' {
        assert s[j + 2] == header[j + 2];
      }
    }
    assert IndexOf(s, "\r\n\r\n") == b;
    assert s[e..e + 4] == "\r\n--";
    assert OccursAt(s, "\r\n--", e);
    forall j | e < j <= |s| ensures !OccursAt(s, "\r\n--", j) {
      if j + 4 <= |s| {
        assert s[j..j + 4][0] == s[j];
        if j < e + 4 {
          assert s[j] == "\r\n--"[j - e];
        } else {
          assert s[j] == trailer[j - e - 4];
        }
      }
    }
    assert LastIndexOf(s, "\r\n--") == e;
    assert s[b + 4..e] == content;
  }

  // ---------------------------------------------------------------------------
  // RewardHandler.handle
  // ---------------------------------------------------------------------------

  /** A file written to the request's folder. */
  datatype SavedFile = SavedFile(name: string, content: string)

  /** The files saved so far and the config path chosen so far (null until a config file is seen). */
  datatype Upload = Upload(files: seq<SavedFile>, config: Option<string>)

  /** The outcome of handle: 400 and nothing queued, an exception, or a request queued for its config. */
  datatype Outcome = BadRequest | Failed(error: Error) | Enqueued(config: string, upload: Upload)

  /** Reference definition: the name of the last saved file that mentions "config". */
  function LastConfig(files: seq<SavedFile>): (c: Option<string>)
    ensures c.Some? ==> Contains(c.value, "config")
  {
    if files == [] then None
    else if Contains(files[|files| - 1].name, "config") then Some(files[|files| - 1].name)
    else LastConfig(files[..|files| - 1])
  }

  /** LastConfig is None exactly when no saved name mentions "config". */
  lemma {:induction false} LastConfigNone(files: seq<SavedFile>)
    ensures LastConfig(files).None? <==> forall k :: 0 <= k < |files| ==> !Contains(files[k].name, "config")
  {
    if files != [] {
      var n := |files| - 1;
      LastConfigNone(files[..n]);
      assert forall k :: 0 <= k < n ==> files[..n][k] == files[k];
    }
  }

  /** When LastConfig names a file, it is the name at index k and no later file mentions "config". */
  predicate LastConfigAt(files: seq<SavedFile>, k: int) {
    && 0 <= k < |files|
    && Contains(files[k].name, "config")
    && forall l :: k < l < |files| ==> !Contains(files[l].name, "config")
  }

  /** LastConfig picks the last saved file whose name mentions "config". */
  lemma {:induction false} LastConfigIsLast(files: seq<SavedFile>, k: int)
    requires LastConfigAt(files, k)
    ensures LastConfig(files) == Some(files[k].name)
  {
    var n := |files| - 1;
    if k < n {
      assert LastConfigAt(files[..n], k);
      LastConfigIsLast(files[..n], k);
    }
  }

  /** The file saved for one part: none without Content-Disposition or without a file name. */
  function SavePart(u: Upload, part: string): Result<Upload> {
    if !Contains(part, "Content-Disposition") then Ok(u)
    else
      match ExtractFileName(JavaSplit(part, "\r\n"))
      case Err(e) => Err(e)
      case Ok(None) => Ok(u)
      case Ok(Some(name)) =>
        var config := if Contains(name, "config") then Some(name) else u.config;
        match ExtractFileContent(part)
        case Err(e) => Err(e)
        case Ok(content) => Ok(Upload(u.files + [SavedFile(name, content)], config))
  }

  /**
   * The loop over the first n parts. The config path it keeps is always the
   * last saved file mentioning "config", and every saved name is quote-free.
   */
  function SaveParts(parts: seq<string>, n: nat): (r: Result<Upload>)
    requires n <= |parts|
    ensures r.Ok? ==> r.value.config == LastConfig(r.value.files)
    ensures r.Ok? ==> |r.value.files| <= n
    ensures r.Ok? ==> forall k :: 0 <= k < |r.value.files| ==> Free(r.value.files[k].name, '"')
  {
    if n == 0 then Ok(Upload([], None))
    else
      match SaveParts(parts, n - 1)
      case Err(e) => Err(e)
      case Ok(u) =>
        var r := SavePart(u, parts[n - 1]);
        assert r.Ok? && r.value != u ==> r.value.files[..|r.value.files| - 1] == u.files;
        r
  }

  /** Once a part throws, the loop has failed for good. */
  lemma {:induction false} SaveErrSticks(parts: seq<string>, n: nat, m: nat)
    requires n <= m <= |parts| && SaveParts(parts, n).Err?
    ensures SaveParts(parts, m) == SaveParts(parts, n)
    decreases m
  {
    if m > n {
      SaveErrSticks(parts, n, m - 1);
    }
  }

  /** Java's split with an empty pattern: one string per character ([""] for the empty body). */
  function Chars(s: string): (r: seq<string>)
    ensures |r| >= 1
  {
    if s == "" then [""] else seq(|s|, i requires 0 <= i < |s| => [s[i]])
  }

  /** contentType.split("boundary=")[1]. */
  function Boundary(contentType: string): Result<string> {
    var fields := JavaSplit(contentType, "boundary=");
    if |fields| <= 1 then Err(ArrayIndexOutOfBounds(1)) else Ok(fields[1])
  }

  function SplitBody(body: string, boundary: string): seq<string> {
    if boundary == "" then Chars(body) else JavaSplit(body, boundary)
  }

  /**
   * handle: 400 exactly when the Content-Type is missing or not
   * multipart/form-data; otherwise every file part is saved and the request
   * is queued with the last config file, or fails with a NullPointerException
   * when the upload held none.
   */
  function Handled(contentType: Option<string>, body: string): (r: Outcome)
    ensures r == BadRequest <==> contentType.None? || !Contains(contentType.value, "multipart/form-data")
    ensures r.Enqueued? ==>
              && Contains(r.config, "config") && r.upload.config == Some(r.config)
              && r.upload.config == LastConfig(r.upload.files)
  {
    if contentType.None? || !Contains(contentType.value, "multipart/form-data") then BadRequest
    else
      match Boundary(contentType.value)
      case Err(e) => Failed(e)
      case Ok(boundary) =>
        var parts := SplitBody(body, boundary);
        match SaveParts(parts, |parts|)
        case Err(e) => Failed(e)
        case Ok(u) => if u.config.None? then Failed(NullPointer) else Enqueued(u.config.value, u)
  }

  lemma SavePartsStep(parts: seq<string>, i: nat, u: Upload)
    requires i < |parts| && SaveParts(parts, i) == Ok(u)
    ensures SaveParts(parts, i + 1) == SavePart(u, parts[i])
  {
  }

  /** The body of handle's loop for one part. */
  method SaveOne(u: Upload, part: string) returns (r: Result<Upload>)
    ensures r == SavePart(u, part)
  {
    if !Contains(part, "Content-Disposition") {
      return Ok(u);
    }
    var name := ExtractFileName(JavaSplit(part, "\r\n"));
    if name.Err? {
      return Err(name.error);
    }
    if name.value.None? {
      return Ok(u);
    }
    var fileName := name.value.value;
    var config := u.config;
    if Contains(fileName, "config") {
      config := Some(fileName);
    }
    var content := ExtractFileContent(part);
    if content.Err? {
      return Err(content.error);
    }
    r := Ok(Upload(u.files + [SavedFile(fileName, content.value)], config));
  }

  /** The loop of handle over the parts of the body. */
  method SaveAll(parts: seq<string>) returns (r: Result<Upload>)
    ensures r == SaveParts(parts, |parts|)
  {
    var u := Upload([], None);
    for i := 0 to |parts|
      invariant SaveParts(parts, i) == Ok(u)
    {
      SavePartsStep(parts, i, u);
      var next := SaveOne(u, parts[i]);
      if next.Err? {
        SaveErrSticks(parts, i + 1, |parts|);
        return next;
      }
      u := next.value;
    }
    r := Ok(u);
  }

  /** RewardHandler.handle without the file system and the config rewrite. */
  method Handle(contentType: Option<string>, body: string) returns (r: Outcome)
    ensures r == Handled(contentType, body)
  {
    if contentType.None? || !Contains(contentType.value, "multipart/form-data") {
      return BadRequest;
    }
    var boundary := Boundary(contentType.value);
    if boundary.Err? {
      return Failed(boundary.error);
    }
    var parts := SplitBody(body, boundary.value);
    var saved := SaveAll(parts);
    if saved.Err? {
      return Failed(saved.error);
    }
    if saved.value.config.None? {
      return Failed(NullPointer);
    }
    r := Enqueued(saved.value.config.value, saved.value);
  }
}
