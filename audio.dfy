/**
 * The voice-note upload route: checks the uploaded file's size, type and
 * leading magic bytes, derives the stored file name, and guards the delete
 * endpoint against path traversal. File-system effects, the clock and the
 * random token are outside the model: the time and the token are parameters,
 * and whether a file exists is an input of the delete decision.
 */
module Audio {
  import opened Text
  import opened Wrappers
  import opened Security

  type byte = b: int | 0 <= b < 256

  const MaxFileSize: int := 10 * 1024 * 1024
  const AllowedAudioTypes: seq<string> := ["audio/webm", "audio/wav", "audio/mp3", "audio/ogg", "audio/mpeg"]

  // ----------------------------------------------------------- magic bytes

  /** Byte `i`, read as `buffer[i]`: None past the end (JavaScript's `undefined`). */
  function ByteAt(buf: seq<byte>, i: nat): Option<byte> {
    if i < |buf| then Some(buf[i]) else None
  }

  /**
   * `buffer.toString('ascii', start, end)`: the end is clamped to the length,
   * and each byte has its high bit cleared before it becomes a character.
   */
  function AsciiSlice(buf: seq<byte>, start: nat, end: nat): (r: string)
    ensures |r| == if start < end && start < |buf| then Min(end, |buf|) - start else 0
  {
    var stop := Min(end, |buf|);
    if start < stop then seq(stop - start, k requires 0 <= k < stop - start => (buf[start + k] % 128) as char)
    else ""
  }

  function Min(a: int, b: int): int { if a < b then a else b }

  /** The first bytes of `buf`, with their high bits cleared, spell `text`. */
  ghost predicate SpellsAt(buf: seq<byte>, at: nat, text: string) {
    at + |text| <= |buf| && forall k :: 0 <= k < |text| ==> buf[at + k] % 128 == text[k] as int
  }

  /** `validateAudioFileHeader`: WebM, WAV, MP3 (ID3 tag or frame sync) or Ogg, by leading bytes. */
  function ValidateAudioFileHeader(buf: seq<byte>): (ok: bool)
    ensures ok <==>
      || (|buf| >= 4 && buf[..4] == [0x1A, 0x45, 0xDF, 0xA3])
      || (SpellsAt(buf, 0, "RIFF") && SpellsAt(buf, 8, "WAVE"))
      || SpellsAt(buf, 0, "ID3")
      || (|buf| >= 2 && buf[..2] == [0xFF, 0xFB])
      || SpellsAt(buf, 0, "OggS")
  {
    AsciiSliceSpells(buf, 0, "RIFF");
    AsciiSliceSpells(buf, 8, "WAVE");
    AsciiSliceSpells(buf, 0, "ID3");
    AsciiSliceSpells(buf, 0, "OggS");
    if ByteAt(buf, 0) == Some(0x1A) && ByteAt(buf, 1) == Some(0x45)
       && ByteAt(buf, 2) == Some(0xDF) && ByteAt(buf, 3) == Some(0xA3) then
      true
    else if AsciiSlice(buf, 0, 4) == "RIFF" && AsciiSlice(buf, 8, 12) == "WAVE" then
      true
    else if AsciiSlice(buf, 0, 3) == "ID3" || (ByteAt(buf, 0) == Some(0xFF) && ByteAt(buf, 1) == Some(0xFB)) then
      true
    else
      AsciiSlice(buf, 0, 4) == "OggS"
  }

  /** Comparing a decoded slice with a word is comparing the masked bytes with its letters. */
  lemma AsciiSliceSpells(buf: seq<byte>, at: nat, text: string)
    requires text != []
    requires forall k :: 0 <= k < |text| ==> text[k] as int < 128
    ensures AsciiSlice(buf, at, at + |text|) == text <==> SpellsAt(buf, at, text)
  {
    var s := AsciiSlice(buf, at, at + |text|);
    if SpellsAt(buf, at, text) {
      assert forall k :: 0 <= k < |text| ==> s[k] == text[k];
    }
    if s == text {
      forall k | 0 <= k < |text| ensures buf[at + k] % 128 == text[k] as int {
        assert s[k] == (buf[at + k] % 128) as char;
      }
    }
  }

  /** A buffer shorter than two bytes matches no signature. */
  lemma ShortBufferRejected(buf: seq<byte>)
    requires |buf| < 2
    ensures !ValidateAudioFileHeader(buf)
  {
  }

  /** The two-byte MP3 frame sync alone is accepted. */
  lemma FrameSyncAccepted()
    ensures ValidateAudioFileHeader([0xFF, 0xFB])
  {
    var b: seq<byte> := [0xFF, 0xFB];
    assert b[..2] == [0xFF, 0xFB];
  }

  /** The 'ascii' decoding drops the high bit, so 0xC9 0xC4 0xB3 reads as "ID3" and is accepted. */
  lemma HighBitTagAccepted()
    ensures ValidateAudioFileHeader([0xC9, 0xC4, 0xB3])
  {
    var b: seq<byte> := [0xC9, 0xC4, 0xB3];
    assert SpellsAt(b, 0, "ID3");
  }

  /** "RIFF" with fewer than twelve bytes is not a WAV header. */
  lemma TruncatedWavRejected(buf: seq<byte>)
    requires |buf| < 12 && SpellsAt(buf, 0, "RIFF")
    ensures !ValidateAudioFileHeader(buf)
  {
    var riff := "RIFF";
    assert riff[0] == 'R' && riff[1] == 'I';
    assert buf[0] % 128 == 'R' as int && buf[1] % 128 == 'I' as int;
    assert !SpellsAt(buf, 8, "WAVE");
    var id3 := "ID3";
    assert id3[0] == 'I';
    var ogg := "OggS";
    assert ogg[0] == 'O';
  }

  // ------------------------------------------------------------- file names

  predicate HasNoDot(s: string) {
    forall k :: 0 <= k < |s| ==> s[k] != '.'
  }

  /** `name.split('.').pop()`: the text after the last '.', or the whole name when it has none. */
  function AfterLastDot(name: string): (r: string)
    ensures |r| <= |name| && name[|name| - |r|..] == r
    ensures HasNoDot(r)
    ensures |r| < |name| ==> name[|name| - |r| - 1] == '.'
  {
    if name == [] then []
    else if name[|name| - 1] == '.' then []
    else AfterLastDot(name[..|name| - 1]) + [name[|name| - 1]]
  }

  /** `… || 'webm'`: an empty last piece falls back to "webm". */
  function Extension(name: string): (ext: string)
    ensures ext != [] && HasNoDot(ext)
    ensures AfterLastDot(name) != [] ==> ext == AfterLastDot(name)
  {
    var piece := AfterLastDot(name);
    if piece == [] then DefaultExtension() else piece
  }

  /** The fallback extension. */
  function DefaultExtension(): (w: string)
    ensures w != [] && HasNoDot(w)
  {
    var w := "webm";
    assert w[0] == 'w' && w[1] == 'e' && w[2] == 'b' && w[3] == 'm';
    w
  }

  function DigitChar(d: nat): char
    requires d < 10
  {
    ['0', '1', '2', '3', '4', '5', '6', '7', '8', '9'][d]
  }

  /** The value of a decimal digit. */
  function DigitValue(c: char): (d: nat)
    requires IsDigit(c)
    ensures d < 10
  {
    c as int - '0' as int
  }

  /** The number a string of decimal digits spells, most significant digit first. */
  function DigitsValue(s: string): nat
    requires forall k :: 0 <= k < |s| ==> IsDigit(s[k])
  {
    if s == [] then 0 else 10 * DigitsValue(s[..|s| - 1]) + DigitValue(s[|s| - 1])
  }

  /**
   * The decimal numeral of `n`, as template-literal interpolation prints it:
   * digits only, no leading zero except for 0 itself, and reading it back
   * gives `n`.
   */
  function Decimal(n: nat): (s: string)
    ensures s != []
    ensures forall k :: 0 <= k < |s| ==> IsDigit(s[k])
    ensures s[0] == '0' ==> n == 0 && s == "0"
    ensures DigitsValue(s) == n
  {
    if n < 10 then [DigitChar(n)]
    else
      var s := Decimal(n / 10) + [DigitChar(n % 10)];
      assert s[..|s| - 1] == Decimal(n / 10);
      s
  }

  /** `voice-${timestamp}-${secureToken}.${extension}`. */
  function StoredName(timestamp: nat, token: string, ext: string): string {
    StoredPrefix(timestamp, token) + "." + ext
  }

  function StoredPrefix(timestamp: nat, token: string): string {
    "voice-" + Decimal(timestamp) + "-" + token
  }

  function PublicUrl(filename: string): string {
    "/uploads/audio/" + filename
  }

  // ------------------------------------------------------------------- POST

  /** An uploaded form file: its name, declared type and contents. */
  datatype AudioFile = AudioFile(name: string, mimeType: string, bytes: seq<byte>)

  datatype UploadFailure = NoAudioFile | UploadRejected(check: UploadCheck) | InvalidAudioFormat

  datatype UploadReply =
    | UploadError(status: int, failure: UploadFailure)
    | Uploaded(url: string, filename: string, size: nat)

  /**
   * `POST`: the audio form field, checked for size and type, then for its
   * magic bytes; the stored name uses the time and token passed in.
   */
  function UploadAudio(file: Option<AudioFile>, timestamp: nat, token: string): (r: UploadReply)
    ensures file.None? ==> r == UploadError(400, NoAudioFile)
    ensures r.UploadError? ==> r.status == 400
    ensures r.Uploaded? <==>
      file.Some? && |file.value.bytes| <= MaxFileSize && file.value.mimeType in AllowedAudioTypes
      && ValidateAudioFileHeader(file.value.bytes)
    ensures r.Uploaded? ==>
      r.filename == StoredName(timestamp, token, Extension(file.value.name))
      && r.url == PublicUrl(r.filename) && r.size == |file.value.bytes|
  {
    if file.None? then UploadError(400, NoAudioFile)
    else
      var f := file.value;
      var check := ValidateFileUpload(|f.bytes|, f.mimeType, UploadOptions(Some(MaxFileSize), Some(AllowedAudioTypes)));
      if check != Valid then UploadError(400, UploadRejected(check))
      else
        var filename := StoredName(timestamp, token, Extension(f.name));
        if !ValidateAudioFileHeader(f.bytes) then UploadError(400, InvalidAudioFormat)
        else Uploaded(PublicUrl(filename), filename, |f.bytes|)
  }

  /** Size is checked before type: an oversized file of a wrong type is reported as too large. */
  lemma SizeCheckedFirst(file: AudioFile, timestamp: nat, token: string)
    requires |file.bytes| > MaxFileSize
    ensures UploadAudio(Some(file), timestamp, token) == UploadError(400, UploadRejected(TooLarge(MaxFileSize)))
  {
  }

  // ----------------------------------------------------------------- DELETE

  datatype DeleteFailure = FilenameRequired | InvalidFilename | FileNotFound

  datatype DeleteReply = DeleteError(status: int, failure: DeleteFailure) | Deleted

  /** The traversal guard: no "..", no '/', no '\'. */
  predicate SafeFilename(filename: string)
    ensures SafeFilename(filename) <==>
      && (forall i :: 0 <= i < |filename| ==> filename[i] != '/' && filename[i] != '\\')
      && forall i :: 0 <= i < |filename| - 1 ==> !(filename[i] == '.' && filename[i + 1] == '.')
  {
    DotDotAt(filename);
    !Contains(filename, "..") && '/' !in filename && '\\' !in filename
  }

  /** `includes("..")` holds exactly when two adjacent characters are both '.'. */
  lemma DotDotAt(s: string)
    ensures Contains(s, "..") <==> exists i :: 0 <= i < |s| - 1 && s[i] == '.' && s[i + 1] == '.'
  {
    ContainsIsSubstring(s, "..");
    if Contains(s, "..") {
      var i :| OccursAt("..", s, i);
      assert s[i..i + 2][0] == s[i] && s[i..i + 2][1] == s[i + 1];
    }
    if exists i :: 0 <= i < |s| - 1 && s[i] == '.' && s[i + 1] == '.' {
      var i :| 0 <= i < |s| - 1 && s[i] == '.' && s[i + 1] == '.';
      assert s[i..i + 2] == "..";
      assert OccursAt("..", s, i);
    }
  }

  /**
   * `DELETE`: the `filename` query parameter is required and must pass the
   * traversal guard before the file's existence (an input here) is consulted.
   */
  function DeleteAudio(filename: Option<string>, fileExists: bool): (r: DeleteReply)
    ensures filename.None? || filename.value == "" ==> r == DeleteError(400, FilenameRequired)
    ensures r == Deleted <==>
      filename.Some? && filename.value != "" && SafeFilename(filename.value) && fileExists
    ensures r == DeleteError(404, FileNotFound) ==> SafeFilename(filename.value)
    ensures filename.Some? && filename.value != "" && !SafeFilename(filename.value) ==>
              r == DeleteError(400, InvalidFilename)
    ensures filename.Some? && filename.value != "" && SafeFilename(filename.value) && !fileExists ==>
              r == DeleteError(404, FileNotFound)
  {
    if filename.None? || filename.value == "" then DeleteError(400, FilenameRequired)
    else if !SafeFilename(filename.value) then DeleteError(400, InvalidFilename)
    else if !fileExists then DeleteError(404, FileNotFound)
    else Deleted
  }

  /** Any name containing ".." is refused, whatever exists on disk. */
  lemma TraversalRefused(before: string, after: string, fileExists: bool)
    ensures DeleteAudio(Some(before + ".." + after), fileExists) == DeleteError(400, InvalidFilename)
  {
    var s := before + ".." + after;
    assert OccursAt("..", s, |before|);
    ContainsIsSubstring(s, "..");
  }

  /** The characters `generateSecureToken` can produce (base64url). */
  predicate IsTokenChar(c: char) {
    IsWordChar(c) || c == '-'
  }

  /** No '.', '/' or '\' in `s`. */
  predicate PlainText(s: string) {
    forall k :: 0 <= k < |s| ==> s[k] != '.' && s[k] != '/' && s[k] != '\\'
  }

  /** The part of a stored name before its dot. */
  lemma StoredPrefixPlain(timestamp: nat, token: string)
    requires forall k :: 0 <= k < |token| ==> IsTokenChar(token[k])
    ensures PlainText(StoredPrefix(timestamp, token))
  {
    var d := Decimal(timestamp);
    var prefix := StoredPrefix(timestamp, token);
    forall k | 0 <= k < |prefix| ensures prefix[k] != '.' && prefix[k] != '/' && prefix[k] != '\\' {
      if k >= 6 + |d| + 1 {
        assert prefix[k] == token[k - 6 - |d| - 1];
      } else if k >= 6 && k < 6 + |d| {
        assert prefix[k] == d[k - 6];
      }
    }
  }

  /** Joining dot-free pieces around one dot never yields "..". */
  lemma SingleDotJoin(prefix: string, ext: string)
    requires PlainText(prefix) && ext != [] && HasNoDot(ext)
    ensures !Contains(prefix + "." + ext, "..")
  {
    var s := prefix + "." + ext;
    forall i | 0 <= i && i + 2 <= |s| ensures !OccursAt("..", s, i) {
      if i < |prefix| {
        assert s[i] == prefix[i];
      } else if i == |prefix| {
        assert s[i + 1] == ext[0];
      } else {
        assert s[i] == ext[i - |prefix| - 1];
      }
      assert s[i..i + 2][0] == s[i];
      assert s[i..i + 2][1] == s[i + 1];
    }
    ContainsIsSubstring(s, "..");
  }

  /** A character other than '.' that is absent from `prefix` occurs in the join exactly when it occurs in `ext`. */
  lemma JoinHolds(prefix: string, ext: string, c: char)
    requires PlainText(prefix) && (c == '/' || c == '\\')
    ensures c in prefix + "." + ext <==> c in ext
  {
    var s := prefix + "." + ext;
    if c in ext {
      var j :| 0 <= j < |ext| && ext[j] == c;
      assert s[|prefix| + 1 + j] == c;
    }
    if c in s {
      var j :| 0 <= j < |s| && s[j] == c;
      if j > |prefix| { assert ext[j - |prefix| - 1] == c; }
      else if j < |prefix| { assert s[j] == prefix[j]; }
    }
  }

  /**
   * A name the upload route stores can be deleted again exactly when the
   * uploaded file's extension has no slash or backslash: the stored name
   * holds a single '.', so never "..".
   */
  lemma StoredNameDeletable(timestamp: nat, token: string, name: string)
    requires forall k :: 0 <= k < |token| ==> IsTokenChar(token[k])
    ensures SafeFilename(StoredName(timestamp, token, Extension(name)))
        <==> '/' !in Extension(name) && '\\' !in Extension(name)
  {
    var ext := Extension(name);
    var prefix := StoredPrefix(timestamp, token);
    StoredPrefixPlain(timestamp, token);
    SingleDotJoin(prefix, ext);
    JoinHolds(prefix, ext, '/');
    JoinHolds(prefix, ext, '\\');
  }
}
