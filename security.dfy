/**
 * Input hygiene helpers: the XSS sanitiser, SQL escaping, upload checks,
 * attack-pattern detection, format predicates for e-mail, PIN and username,
 * CSRF token comparison, and a per-identifier fixed-window rate limiter.
 *
 * Regular expressions are modelled by the matching they perform: `\w` is
 * ASCII word characters, `\s` and `trim` use JavaScript's whitespace set, and
 * the `i` flag folds ASCII letters only (exact for these ASCII patterns).
 */
module Security {
  import opened Wrappers
  import opened Text
  import opened FixedWindow

  // ---------------------------------------------------------------- sanitiser

  /** `replace(/[<>]/g, '')`. */
  function StripAngles(s: string): (r: string)
    ensures forall i :: 0 <= i < |r| ==> r[i] != '<' && r[i] != '>'
    ensures forall c :: c != '<' && c != '>' ==> multiset(r)[c] == multiset(s)[c]
    ensures multiset(r) <= multiset(s)
  {
    if s == [] then []
    else
      assert s == [s[0]] + s[1..];
      if s[0] == '<' || s[0] == '>' then StripAngles(s[1..]) else [s[0]] + StripAngles(s[1..])
  }

  /** The angle pass works character by character, so it keeps the order of what it keeps. */
  lemma {:induction false} StripAnglesConcat(a: string, b: string)
    ensures StripAngles(a + b) == StripAngles(a) + StripAngles(b)
    ensures |a| == 1 ==> StripAngles(a) == if a[0] == '<' || a[0] == '>' then [] else a
    decreases |a|
  {
    if a == [] {
      assert a + b == b;
    } else {
      var s := a + b;
      assert s[0] == a[0];
      assert s[1..] == a[1..] + b;
      StripAnglesConcat(a[1..], b);
      var x, y := StripAngles(a[1..]), StripAngles(b);
      assert StripAngles(s[1..]) == x + y;
      if a[0] == '<' || a[0] == '>' {
        assert StripAngles(s) == StripAngles(s[1..]);
        assert StripAngles(a) == x;
      } else {
        assert StripAngles(s) == [a[0]] + StripAngles(s[1..]);
        assert StripAngles(a) == [a[0]] + x;
        JoinAssociates([a[0]], x, y);
      }
      if |a| == 1 {
        assert a[1..] == [];
        assert a == [a[0]];
      }
    }
  }

  const JavascriptProtocol: string := "java" + "script:"

  /**
   * `replace(/javascript:/gi, '')`: one left-to-right pass that deletes each
   * case-insensitive occurrence and resumes after it.
   */
  function StripProtocol(s: string): (r: string)
    ensures |r| <= |s|
    ensures multiset(r) <= multiset(s)
    ensures (exists i :: ProtocolAt(s, i)) ==> |r| < |s|
    ensures (forall i :: !ProtocolAt(s, i)) ==> r == s
    decreases |s|
  {
    if |s| < |JavascriptProtocol| then s
    else if Lower(s[..|JavascriptProtocol|]) == JavascriptProtocol then
      assert ProtocolAt(s, 0);
      assert s == s[..|JavascriptProtocol|] + s[|JavascriptProtocol|..];
      StripProtocol(s[|JavascriptProtocol|..])
    else
      assert s == [s[0]] + s[1..];
      ProtocolAtTail(s);
      [s[0]] + StripProtocol(s[1..])
  }

  /** `javascript:` occurs, in any case of its letters, at index `i`. */
  ghost predicate ProtocolAt(s: string, i: int) {
    0 <= i && i + |JavascriptProtocol| <= |s| && Lower(s[i..i + |JavascriptProtocol|]) == JavascriptProtocol
  }

  /** Occurrences in the tail of `s` are the occurrences in `s` after its first index. */
  lemma ProtocolAtTail(s: string)
    requires s != []
    ensures forall j :: ProtocolAt(s[1..], j) ==> ProtocolAt(s, j + 1)
    ensures forall i :: 1 <= i && ProtocolAt(s, i) ==> ProtocolAt(s[1..], i - 1)
  {
    forall j | ProtocolAt(s[1..], j) ensures ProtocolAt(s, j + 1) {
      assert s[1..][j..j + |JavascriptProtocol|] == s[j + 1..j + 1 + |JavascriptProtocol|];
    }
    forall i | 1 <= i && ProtocolAt(s, i) ensures ProtocolAt(s[1..], i - 1) {
      assert s[1..][i - 1..i - 1 + |JavascriptProtocol|] == s[i..i + |JavascriptProtocol|];
    }
  }

  /** The number of `\w` characters starting at index `j`. */
  function WordRun(s: string, j: nat): (n: nat)
    requires j <= |s|
    ensures j + n <= |s|
    ensures forall k :: j <= k < j + n ==> IsWordChar(s[k])
    ensures j + n < |s| ==> !IsWordChar(s[j + n])
    decreases |s| - j
  {
    if j == |s| || !IsWordChar(s[j]) then 0 else 1 + WordRun(s, j + 1)
  }

  /** `n` word characters from index `j`, then '='. */
  ghost predicate WordsThenEquals(s: string, j: int, n: int) {
    0 <= j && 0 <= n && j + n < |s| && s[j + n] == '='
    && forall k :: j <= k < j + n ==> IsWordChar(s[k])
  }

  /** The pattern `/on\w+=/i` matches at index `i`. */
  ghost predicate HandlerAt(s: string, i: int) {
    0 <= i && i + 1 < |s| && LowerChar(s[i]) == 'o' && LowerChar(s[i + 1]) == 'n'
    && var j := i + 2; exists n :: 1 <= n && WordsThenEquals(s, j, n)
  }

  /** The greedy `\w+` run is the only candidate, so the match is decided by what follows it. */
  lemma HandlerAtByRun(s: string, i: nat)
    requires i + 1 < |s|
    ensures HandlerAt(s, i) <==>
      LowerChar(s[i]) == 'o' && LowerChar(s[i + 1]) == 'n'
      && var w := WordRun(s, i + 2); w >= 1 && i + 2 + w < |s| && s[i + 2 + w] == '='
  {
    var w := WordRun(s, i + 2);
    if HandlerAt(s, i) {
      var m :| 1 <= m && WordsThenEquals(s, i + 2, m);
      assert w == m;
    }
    if LowerChar(s[i]) == 'o' && LowerChar(s[i + 1]) == 'n' && w >= 1 && i + 2 + w < |s| && s[i + 2 + w] == '=' {
      assert WordsThenEquals(s, i + 2, w);
    }
  }

  /** The length of the match of `/on\w+=/i` at index `i`, or 0 when it does not match there. */
  function HandlerLen(s: string, i: nat): (n: nat)
    requires i <= |s|
    ensures i + n <= |s|
    ensures n > 0 <==> HandlerAt(s, i)
    ensures n > 0 ==> n >= 4 && s[i + n - 1] == '='
  {
    if i + 1 < |s| && LowerChar(s[i]) == 'o' && LowerChar(s[i + 1]) == 'n' then
      HandlerAtByRun(s, i);
      var w := WordRun(s, i + 2);
      if w >= 1 && i + 2 + w < |s| && s[i + 2 + w] == '=' then 3 + w else 0
    else
      if i + 1 < |s| then HandlerAtByRun(s, i); 0 else 0
  }

  /** `replace(/on\w+=/gi, '')` applied to the part of `s` from index `i`. */
  function StripHandlersFrom(s: string, i: nat): (r: string)
    requires i <= |s|
    ensures |r| <= |s| - i
    ensures multiset(r) <= multiset(s[i..])
    ensures (exists j :: i <= j < |s| && HandlerAt(s, j)) ==> |r| < |s| - i
    ensures (forall j :: i <= j < |s| ==> !HandlerAt(s, j)) ==> r == s[i..]
    decreases |s| - i
  {
    if i == |s| then []
    else
      var n := HandlerLen(s, i);
      assert s[i..] == s[i..i + n] + s[i + n..];
      assert s[i..] == [s[i]] + s[i + 1..];
      if n > 0 then StripHandlersFrom(s, i + n) else [s[i]] + StripHandlersFrom(s, i + 1)
  }

  function StripHandlers(s: string): (r: string)
    ensures |r| <= |s|
    ensures multiset(r) <= multiset(s)
    ensures (exists j :: 0 <= j < |s| && HandlerAt(s, j)) ==> |r| < |s|
    ensures (forall j :: 0 <= j < |s| ==> !HandlerAt(s, j)) ==> r == s
  {
    assert s[0..] == s;
    StripHandlersFrom(s, 0)
  }

  /** The number of whitespace characters at the start of `s`. */
  function LeadingSpaces(s: string): (n: nat)
    ensures n <= |s|
    ensures forall i :: 0 <= i < n ==> IsSpace(s[i])
    ensures n < |s| ==> !IsSpace(s[n])
  {
    if s != [] && IsSpace(s[0]) then 1 + LeadingSpaces(s[1..]) else 0
  }

  /** `trimEnd`: drops the trailing whitespace. */
  function TrimEnd(s: string): (r: string)
    ensures |r| <= |s| && r == s[..|r|]
    ensures forall i :: |r| <= i < |s| ==> IsSpace(s[i])
    ensures r != [] ==> !IsSpace(r[|r| - 1])
  {
    if s != [] && IsSpace(s[|s| - 1]) then TrimEnd(s[..|s| - 1]) else s
  }

  /**
   * `trim`: the slice of `s` that starts after its leading whitespace and
   * stops before its trailing whitespace; neither end of it is whitespace.
   */
  function Trim(s: string): (r: string)
    ensures var a := LeadingSpaces(s);
      a + |r| <= |s| && r == s[a..a + |r|]
      && forall i :: a + |r| <= i < |s| ==> IsSpace(s[i])
    ensures r != [] ==> !IsSpace(r[0]) && !IsSpace(r[|r| - 1])
  {
    var t := s[LeadingSpaces(s)..];
    var r := TrimEnd(t);
    assert r == s[LeadingSpaces(s)..LeadingSpaces(s) + |r|];
    r
  }

  const MaxInputLength: nat := 1000

  /** `slice(0, 1000)`. */
  function Truncate(s: string): (r: string)
    ensures r == s[..if |s| < MaxInputLength then |s| else MaxInputLength]
  {
    if |s| <= MaxInputLength then s else s[..MaxInputLength]
  }

  predicate NoAngles(s: string) {
    forall i :: 0 <= i < |s| ==> s[i] != '<' && s[i] != '>'
  }

  /** Characters drawn from a string without angle brackets include none. */
  lemma NoAnglesInSubMultiset(x: string, y: string)
    requires multiset(x) <= multiset(y) && NoAngles(y)
    ensures NoAngles(x)
  {
    forall i | 0 <= i < |x| ensures x[i] != '<' && x[i] != '>' {
      assert x[i] in multiset(x);
    }
  }

  /** A slice holds no character its string does not. */
  lemma SliceMultiset(s: string, a: nat, b: nat)
    requires a <= b <= |s|
    ensures multiset(s[a..b]) <= multiset(s)
  {
    assert s == s[..a] + s[a..b] + s[b..];
  }

  /** `sanitizeInput`: strip angle brackets, the `javascript:` protocol, event handlers; trim; truncate. */
  function SanitizeInput(input: string): (r: string)
    ensures NoAngles(r)
    ensures |r| <= MaxInputLength
    ensures r != [] ==> !IsSpace(r[0])
    ensures multiset(r) <= multiset(input)
  {
    var a := StripAngles(input);
    var b := StripProtocol(a);
    var c := StripHandlers(b);
    var d := Trim(c);
    var r := Truncate(d);
    TrimMultiset(c);
    TruncateMultiset(d);
    SubMultisetTrans(r, d, c);
    SubMultisetTrans(r, c, b);
    SubMultisetTrans(r, b, a);
    NoAnglesInSubMultiset(r, a);
    SubMultisetTrans(r, a, input);
    assert r != [] ==> r[0] == d[0];
    r
  }

  /** Trimming only drops characters. */
  lemma TrimMultiset(s: string)
    ensures multiset(Trim(s)) <= multiset(s)
  {
    var a := LeadingSpaces(s);
    var t := Trim(s);
    assert t == s[a..a + |t|];
    SliceMultiset(s, a, a + |t|);
  }

  /** Truncating only drops characters. */
  lemma TruncateMultiset(s: string)
    ensures multiset(Truncate(s)) <= multiset(s)
  {
    var t := Truncate(s);
    assert s[0..|t|] == t;
    SliceMultiset(s, 0, |t|);
  }

  lemma SubMultisetTrans(x: string, y: string, z: string)
    requires multiset(x) <= multiset(y) && multiset(y) <= multiset(z)
    ensures multiset(x) <= multiset(z)
  {
  }

  /** Removing angle brackets changes nothing in a string that has none. */
  lemma {:induction false} StripAnglesUnchanged(s: string)
    requires forall i :: 0 <= i < |s| ==> s[i] != '<' && s[i] != '>'
    ensures StripAngles(s) == s
  {
    if s != [] {
      StripAnglesUnchanged(s[1..]);
    }
  }

  /** The protocol pass changes nothing in a string without ':'. */
  lemma {:induction false} StripProtocolUnchanged(s: string)
    requires forall i :: 0 <= i < |s| ==> s[i] != ':'
    ensures StripProtocol(s) == s
    decreases |s|
  {
    if |s| >= |JavascriptProtocol| {
      assert Lower(s[..|JavascriptProtocol|])[10] != ':';
      StripProtocolUnchanged(s[1..]);
    }
  }

  /** The event-handler pass changes nothing in a string without '='. */
  lemma {:induction false} StripHandlersUnchanged(s: string, i: nat)
    requires i <= |s|
    requires forall j :: 0 <= j < |s| ==> s[j] != '='
    ensures StripHandlersFrom(s, i) == s[i..]
    decreases |s| - i
  {
    if i < |s| {
      StripHandlersUnchanged(s, i + 1);
      assert s[i..] == [s[i]] + s[i + 1..];
    }
  }

  /** A window that differs from `javascript:` at one folded character is kept, first character included. */
  lemma ProtocolMissAt(s: string, k: nat)
    requires |s| >= |JavascriptProtocol| && k < |JavascriptProtocol|
    requires LowerChar(s[k]) != JavascriptProtocol[k]
    ensures StripProtocol(s) == [s[0]] + StripProtocol(s[1..])
  {
    assert Lower(s[..|JavascriptProtocol|])[k] == LowerChar(s[k]);
  }

  /** A window that is exactly `javascript:` is deleted whole. */
  lemma ProtocolHit(p: string, y: string)
    requires |p| == |JavascriptProtocol| && Lower(p) == JavascriptProtocol
    ensures StripProtocol(p + y) == StripProtocol(y)
  {
    var s := p + y;
    assert s[..|JavascriptProtocol|] == p;
    assert s[|JavascriptProtocol|..] == y;
  }

  /** The protocol text is its own folded form. */
  lemma ProtocolFolded()
    ensures Lower(JavascriptProtocol) == JavascriptProtocol
  {
    LowerOfLowerCase(JavascriptProtocol);
  }

  /** A character that does not fold to 'j' cannot start a protocol, so it is kept. */
  lemma KeepOne(c: char, t: string)
    requires |t| + 1 >= |JavascriptProtocol| && LowerChar(c) != 'j'
    ensures StripProtocol([c] + t) == [c] + StripProtocol(t)
  {
    ProtocolMissAt([c] + t, 0);
    assert ([c] + t)[1..] == t;
  }

  /**
   * Four characters, none after the first folding to 'j', put before a
   * protocol: no window in them matches, so they are kept and the protocol
   * after them is deleted.
   */
  lemma KeptPrefixThenHit(x: string, y: string)
    requires |x| == 4 && |y| < |JavascriptProtocol|
    requires LowerChar(x[1]) != 'j' && LowerChar(x[2]) != 'j' && LowerChar(x[3]) != 'j'
    ensures StripProtocol(x + JavascriptProtocol + y) == x + y
  {
    assert (JavascriptProtocol + y)[0] == 'j';
    PrefixKept(x, JavascriptProtocol + y);
    ProtocolFolded();
    ProtocolHit(JavascriptProtocol, y);
    JoinAssociates(x, JavascriptProtocol, y);
  }

  lemma JoinAssociates(a: string, b: string, c: string)
    ensures a + b + c == a + (b + c)
  {
  }

  /** Four characters that start no protocol window are kept in front of whatever follows. */
  lemma PrefixKept(x: string, z: string)
    requires |x| == 4 && |z| + 1 >= |JavascriptProtocol|
    requires LowerChar(x[1]) != 'j' && LowerChar(x[2]) != 'j' && LowerChar(x[3]) != 'j'
    requires LowerChar(z[0]) != 's'
    ensures StripProtocol(x + z) == x + StripProtocol(z)
  {
    var t2 := [x[3]] + z;
    var t1 := [x[2]] + t2;
    var t0 := [x[1]] + t1;
    var s := [x[0]] + t0;
    UnfoldFourPlain(x, z);
    KeepOne(x[3], z);
    KeepOne(x[2], t2);
    KeepOne(x[1], t1);
    assert s[4] == z[0];
    ProtocolMissAt(s, 4);
    assert s[1..] == t0;
    UnfoldFourPlain(x, StripProtocol(z));
  }

  lemma UnfoldFourPlain(x: string, y: string)
    requires |x| == 4
    ensures x + y == [x[0]] + ([x[1]] + ([x[2]] + ([x[3]] + y)))
  {
  }

  /** `javascript:` matches itself. */
  lemma ProtocolAtItself()
    ensures ProtocolAt(JavascriptProtocol, 0)
  {
    LowerOfLowerCase(JavascriptProtocol);
    assert JavascriptProtocol[0..|JavascriptProtocol|] == JavascriptProtocol;
  }

  /**
   * The protocol pass resumes after each deletion and never rescans, so a
   * protocol split around another one survives: "javajavascript:script:"
   * leaves "javascript:".
   */
  lemma SinglePassLeavesProtocol()
    ensures var r := StripProtocol("java" + JavascriptProtocol + "script:");
      r == JavascriptProtocol && ProtocolAt(r, 0)
  {
    KeptPrefixThenHit("java", "script:");
    ProtocolAtItself();
  }

  /** Trimming changes nothing when neither end is whitespace. */
  lemma TrimUnchanged(s: string)
    requires s != [] ==> !IsSpace(s[0]) && !IsSpace(s[|s| - 1])
    ensures Trim(s) == s
  {
  }

  /**
   * A string free of '<', '>', ':' and '=' with no whitespace at either end
   * is only truncated by the sanitiser.
   */
  lemma SanitizeOfPlainText(s: string)
    requires forall i :: 0 <= i < |s| ==> s[i] !in {'<', '>', ':', '='}
    requires s != [] ==> !IsSpace(s[0]) && !IsSpace(s[|s| - 1])
    ensures SanitizeInput(s) == Truncate(s)
  {
    StripAnglesUnchanged(s);
    StripProtocolUnchanged(s);
    StripHandlersUnchanged(s, 0);
    assert s[0..] == s;
    TrimUnchanged(s);
  }

  /** Truncation comes after trimming, so whitespace at index 999 ends up at the end of the output. */
  lemma TruncationKeepsTrailingSpace(s: string)
    requires |s| > MaxInputLength && IsSpace(s[MaxInputLength - 1])
    requires forall i :: 0 <= i < |s| ==> s[i] !in {'<', '>', ':', '='}
    requires !IsSpace(s[0]) && !IsSpace(s[|s| - 1])
    ensures var r := SanitizeInput(s); |r| == MaxInputLength && IsSpace(r[|r| - 1])
  {
    SanitizeOfPlainText(s);
  }

  // ------------------------------------------------------------- SQL escaping

  predicate IsSqlSpecial(c: char) {
    c == '\'' || c == '"' || c == ';' || c == '\\'
  }

  function CountSqlSpecial(s: string): nat {
    if s == [] then 0 else (if IsSqlSpecial(s[0]) then 1 else 0) + CountSqlSpecial(s[1..])
  }

  /** `replace(/['";\\]/g, '\\$&')`: a backslash before each quote, double quote, semicolon and backslash. */
  function EscapeSqlInput(input: string): (r: string)
    ensures |r| == |input| + CountSqlSpecial(input)
  {
    if input == [] then []
    else (if IsSqlSpecial(input[0]) then ['\\', input[0]] else [input[0]]) + EscapeSqlInput(input[1..])
  }

  /** Reads an escaped string back: a backslash stands for the character after it. */
  function UnescapeSql(s: string): string
    decreases |s|
  {
    if s == [] then []
    else if s[0] == '\\' && |s| >= 2 then [s[1]] + UnescapeSql(s[2..])
    else [s[0]] + UnescapeSql(s[1..])
  }

  /** Escaping loses nothing: reading the escaped text back gives the input. */
  lemma {:induction false} EscapeRoundTrip(s: string)
    ensures UnescapeSql(EscapeSqlInput(s)) == s
  {
    if s != [] {
      var e := EscapeSqlInput(s);
      var tail := EscapeSqlInput(s[1..]);
      EscapeRoundTrip(s[1..]);
      if IsSqlSpecial(s[0]) {
        assert e == ['\\', s[0]] + tail;
        assert e[2..] == tail;
      } else {
        assert e == [s[0]] + tail;
        assert e[1..] == tail;
      }
    }
  }

  /** No escapable character is left without a backslash in front of it. */
  lemma {:induction false} EscapedSpecialsArePrefixed(s: string, i: nat)
    requires i < |EscapeSqlInput(s)| && IsSqlSpecial(EscapeSqlInput(s)[i])
    ensures exists j :: 0 <= j < |EscapeSqlInput(s)| && EscapeSqlInput(s)[j] == '\\' && (j == i || j + 1 == i)
  {
    var e := EscapeSqlInput(s);
    var tail := EscapeSqlInput(s[1..]);
    var head: string := if IsSqlSpecial(s[0]) then ['\\', s[0]] else [s[0]];
    assert e == head + tail;
    if i >= |head| {
      assert tail[i - |head|] == e[i];
      EscapedSpecialsArePrefixed(s[1..], i - |head|);
      var j :| 0 <= j < |tail| && tail[j] == '\\' && (j == i - |head| || j + 1 == i - |head|);
      assert e[j + |head|] == '\\';
    } else {
      assert e[0] == '\\';
    }
  }

  // ------------------------------------------------------------- file upload

  const DefaultMaxSize: int := 5 * 1024 * 1024
  const DefaultAllowedTypes: seq<string> := ["audio/webm", "audio/wav", "audio/mp3"]

  /** The options object; `None` is an absent property. */
  datatype UploadOptions = UploadOptions(maxSize: Option<int>, allowedTypes: Option<seq<string>>)

  datatype UploadCheck = Valid | TooLarge(maxSize: int) | InvalidType(allowedTypes: seq<string>)

  /** `options.maxSize || 5MiB`: an absent or zero size falls back to the default. */
  function EffectiveMaxSize(options: UploadOptions): int {
    match options.maxSize
    case Some(m) => if m == 0 then DefaultMaxSize else m
    case None => DefaultMaxSize
  }

  /** `options.allowedTypes || [...]`: an array, even an empty one, is kept. */
  function EffectiveAllowedTypes(options: UploadOptions): seq<string> {
    options.allowedTypes.GetOr(DefaultAllowedTypes)
  }

  /** `validateFileUpload`: size first (the maximum itself is allowed), then the MIME type. */
  function ValidateFileUpload(size: nat, mimeType: string, options: UploadOptions): (r: UploadCheck)
    ensures r == Valid <==> size <= EffectiveMaxSize(options) && mimeType in EffectiveAllowedTypes(options)
    ensures r.TooLarge? <==> size > EffectiveMaxSize(options)
    ensures r.TooLarge? ==> r.maxSize == EffectiveMaxSize(options)
    ensures r.InvalidType? ==> r.allowedTypes == EffectiveAllowedTypes(options)
  {
    var maxSize := EffectiveMaxSize(options);
    var allowedTypes := EffectiveAllowedTypes(options);
    if size > maxSize then TooLarge(maxSize)
    else if mimeType !in allowedTypes then InvalidType(allowedTypes)
    else Valid
  }

  // ---------------------------------------------------------- attack patterns

  /** The literal patterns of `detectAttackPatterns`, all lower case. */
  const AttackLiterals: seq<string> :=
    ["<script", "javascript:", "eval(", "expression(", "<iframe", "document.", "window."]

  /** Some literal of `patterns` occurs in `s`. */
  predicate ContainsAny(s: string, patterns: seq<string>)
    ensures ContainsAny(s, patterns) <==> exists p :: p in patterns && IsSubstring(p, s)
  {
    if patterns == [] then false
    else
      ContainsIsSubstring(s, patterns[0]);
      Contains(s, patterns[0]) || ContainsAny(s, patterns[1..])
  }

  /** `/on\w+=/i` matches at some index at or after `i`. */
  predicate ContainsHandlerFrom(s: string, i: nat)
    requires i <= |s|
    ensures ContainsHandlerFrom(s, i) <==> exists j :: i <= j && HandlerAt(s, j)
    decreases |s| - i
  {
    if i == |s| then false
    else HandlerLen(s, i) > 0 || ContainsHandlerFrom(s, i + 1)
  }

  /** `detectAttackPatterns`. */
  function DetectAttackPatterns(input: string): (r: bool)
    ensures r <==> (exists p :: p in AttackLiterals && IsSubstring(p, Lower(input)))
                   || (exists i :: HandlerAt(input, i))
  {
    ContainsAny(Lower(input), AttackLiterals) || ContainsHandlerFrom(input, 0)
  }

  // ---------------------------------------------------------------- formats

  /** The first index of `c` in `s`, or `|s|`. */
  function IndexOf(s: string, c: char): (i: nat)
    ensures i <= |s|
    ensures i < |s| ==> s[i] == c
    ensures forall j :: 0 <= j < i ==> s[j] != c
  {
    if s == [] then 0 else if s[0] == c then 0 else 1 + IndexOf(s[1..], c)
  }

  /** A non-empty run of characters other than whitespace and '@': the regex `[^\s@]+`. */
  predicate IsEmailPart(s: string) {
    s != [] && forall i :: 0 <= i < |s| ==> !IsSpace(s[i]) && s[i] != '@'
  }

  /** The address assembled from its three regex groups. */
  function EmailOf(local: string, domain: string, tld: string): string {
    local + "@" + domain + "." + tld
  }

  /** `isValidEmail`: at most 254 characters, one '@', and a '.' strictly inside the domain. */
  predicate IsValidEmail(email: string) {
    && |email| <= 254
    && (forall i :: 0 <= i < |email| ==> !IsSpace(email[i]))
    && var at := IndexOf(email, '@');
       && 1 <= at < |email|
       && (forall j :: at < j < |email| ==> email[j] != '@')
       && exists d :: at + 1 < d < |email| - 1 && email[d] == '.'
  }

  /** A valid address holds exactly one '@' and at least five characters. */
  lemma ValidEmailShape(email: string)
    requires IsValidEmail(email)
    ensures multiset(email)['@'] == 1 && 5 <= |email| <= 254
  {
    OneAt(email, IndexOf(email, '@'));
  }

  /** A string whose only '@' is at index `at` counts one '@'. */
  lemma OneAt(s: string, at: nat)
    requires at < |s| && s[at] == '@'
    requires forall j :: 0 <= j < |s| && j != at ==> s[j] != '@'
    ensures multiset(s)['@'] == 1
  {
    assert s == s[..at] + [s[at]] + s[at + 1..];
    assert '@' !in s[..at];
    assert '@' !in s[at + 1..];
  }

  /** Where the separators and the three parts sit in an assembled address. */
  lemma EmailOfLayout(local: string, domain: string, tld: string)
    ensures var e := EmailOf(local, domain, tld);
      && |e| == |local| + |domain| + |tld| + 2
      && e[|local|] == '@' && e[|local| + 1 + |domain|] == '.'
      && e[..|local|] == local
      && e[|local| + 1..|local| + 1 + |domain|] == domain
      && e[|local| + 2 + |domain|..] == tld
  {
  }

  /** A valid address splits into the three parts of the pattern. */
  lemma EmailSplits(email: string)
    requires IsValidEmail(email)
    ensures exists local, domain, tld ::
      IsEmailPart(local) && IsEmailPart(domain) && IsEmailPart(tld)
      && email == EmailOf(local, domain, tld)
  {
    var at := IndexOf(email, '@');
    var d :| at + 1 < d < |email| - 1 && email[d] == '.';
    var local, domain, tld := email[..at], email[at + 1..d], email[d + 1..];
    assert email == EmailOf(local, domain, tld);
    assert IsEmailPart(local) && IsEmailPart(domain) && IsEmailPart(tld);
  }

  /** An address assembled from three parts of the pattern, short enough, is valid. */
  lemma EmailOfIsValid(local: string, domain: string, tld: string)
    requires IsEmailPart(local) && IsEmailPart(domain) && IsEmailPart(tld)
    requires |EmailOf(local, domain, tld)| <= 254
    ensures IsValidEmail(EmailOf(local, domain, tld))
  {
    var e := EmailOf(local, domain, tld);
    EmailOfLayout(local, domain, tld);
    var at := |local|;
    var d := at + 1 + |domain|;
    forall i | 0 <= i < |e| ensures !IsSpace(e[i]) && (i != at ==> e[i] != '@') {
      if i < at {
        assert e[i] == e[..at][i];
      } else if at < i < d {
        assert e[i] == e[at + 1..d][i - at - 1];
      } else if d < i {
        assert e[i] == e[d + 1..][i - d - 1];
      }
    }
    assert IndexOf(e, '@') == at;
  }

  /** The check agrees with `/^[^\s@]+@[^\s@]+\.[^\s@]+$/` plus the length bound. */
  lemma EmailMatchesPattern(email: string)
    ensures IsValidEmail(email) <==>
      |email| <= 254
      && exists local, domain, tld ::
           IsEmailPart(local) && IsEmailPart(domain) && IsEmailPart(tld)
           && email == EmailOf(local, domain, tld)
  {
    if IsValidEmail(email) {
      EmailSplits(email);
    }
    if |email| <= 254
       && exists local, domain, tld ::
            IsEmailPart(local) && IsEmailPart(domain) && IsEmailPart(tld)
            && email == EmailOf(local, domain, tld)
    {
      var local, domain, tld :| IsEmailPart(local) && IsEmailPart(domain) && IsEmailPart(tld)
                                && email == EmailOf(local, domain, tld);
      EmailOfIsValid(local, domain, tld);
    }
  }

  /** `isValidPIN`: `/^\d{4,6}$/`. A valid PIN passes the sanitiser and SQL escaping unchanged. */
  predicate IsValidPin(pin: string)
    ensures IsValidPin(pin) ==> SanitizeInput(pin) == pin && EscapeSqlInput(pin) == pin
  {
    if 4 <= |pin| <= 6 && forall i :: 0 <= i < |pin| ==> IsDigit(pin[i]) then
      SanitizeOfSafeChars(pin);
      EscapeOfSafeChars(pin);
      true
    else false
  }

  /** Text of word characters and '-' needs no SQL escaping. */
  lemma EscapeOfSafeChars(s: string)
    requires forall i :: 0 <= i < |s| ==> IsWordChar(s[i]) || s[i] == '-'
    ensures EscapeSqlInput(s) == s
  {
    forall i | 0 <= i < |s| ensures !IsSqlSpecial(s[i]) {
      SafeChar(s[i]);
    }
    NoSpecialsUnescaped(s);
  }

  /** Text of word characters and '-', below the length cap, is left alone by the sanitiser. */
  lemma SanitizeOfSafeChars(s: string)
    requires |s| <= MaxInputLength
    requires forall i :: 0 <= i < |s| ==> IsWordChar(s[i]) || s[i] == '-'
    ensures SanitizeInput(s) == s
  {
    forall i | 0 <= i < |s| ensures s[i] !in {'<', '>', ':', '='} && !IsSpace(s[i]) {
      SafeChar(s[i]);
    }
    SanitizeOfPlainText(s);
    assert s[..|s|] == s;
  }

  lemma SafeChar(c: char)
    requires IsWordChar(c) || c == '-'
    ensures c !in {'<', '>', ':', '='} && !IsSpace(c) && !IsSqlSpecial(c)
  {
  }

  /** Escaping changes nothing in text without quotes, semicolons or backslashes. */
  lemma {:induction false} NoSpecialsUnescaped(s: string)
    requires forall i :: 0 <= i < |s| ==> !IsSqlSpecial(s[i])
    ensures EscapeSqlInput(s) == s
  {
    if s != [] {
      NoSpecialsUnescaped(s[1..]);
      assert s == [s[0]] + s[1..];
    }
  }

  /** The class `[a-zA-Z0-9_-]`. */
  predicate IsUsernameChar(c: char) {
    IsWordChar(c) || c == '-'
  }

  /** `isValidUsername`: `/^[a-zA-Z0-9_-]{3,20}$/`. A valid username needs no SQL escaping. */
  predicate IsValidUsername(username: string)
    ensures IsValidUsername(username) ==> EscapeSqlInput(username) == username
  {
    if 3 <= |username| <= 20 && forall i :: 0 <= i < |username| ==> IsUsernameChar(username[i]) then
      EscapeOfSafeChars(username);
      true
    else false
  }

  /** The sanitiser returns a valid username unchanged. */
  lemma SanitizeKeepsValidUsername(username: string)
    requires IsValidUsername(username)
    ensures SanitizeInput(username) == username
  {
    SanitizeOfPlainText(username);
  }

  /** `validateCSRFToken`: strict equality with the stored token. */
  predicate ValidateCsrfToken(token: string, storedToken: string) {
    token == storedToken
  }

  /** Only the stored token itself is accepted, and it always is. */
  lemma CsrfAcceptsOnlyStoredToken(token: string, storedToken: string)
    ensures ValidateCsrfToken(token, storedToken) <==> token == storedToken
    ensures ValidateCsrfToken(storedToken, storedToken)
  {
  }

  // ------------------------------------------------------------- rate limiter

  /** `RateLimiter`: a fixed-window counter per identifier. */
  class RateLimiter {
    var store: Store
    const maxRequests: int
    const windowMs: int

    ghost predicate Valid()
      reads this
    {
      Bounded(store, maxRequests)
    }

    constructor (maxRequests: int := 10, windowMs: int := 60000)
      ensures Valid() && store == map[]
      ensures this.maxRequests == maxRequests && this.windowMs == windowMs
    {
      this.store := map[];
      this.maxRequests := maxRequests;
      this.windowMs := windowMs;
    }

    /** `check(identifier)` at time `now`. */
    method Check(identifier: string, now: int) returns (allowed: bool)
      requires Valid()
      modifies this
      ensures Valid()
      ensures (store, allowed) == Step(old(store), identifier, now, maxRequests, windowMs)
    {
      StepKeepsBounded(store, identifier, now, maxRequests, windowMs);
      if identifier !in store || now > store[identifier].resetTime {
        store := store[identifier := Entry(1, now + windowMs)];
        return true;
      }
      var record := store[identifier];
      if record.count >= maxRequests {
        return false;
      }
      store := store[identifier := record.(count := record.count + 1)];
      return true;
    }

    /** `reset(identifier)`: forgets that identifier's record only. */
    method Reset(identifier: string)
      requires Valid()
      modifies this
      ensures Valid()
      ensures store == old(store) - {identifier}
    {
      store := store - {identifier};
    }
  }
}
