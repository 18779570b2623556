/**
 * The anonymous-user creation route: the request body is parsed against the
 * creation schema, the username is sanitised, re-checked and screened against
 * a short blocklist, and the stored row and the public reply are built. The
 * database insert is outside the model: the id it assigns is a parameter.
 */
module Users {
  import opened Wrappers
  import opened Text
  import opened Security

  /** A parsed JSON request body. Numbers are kept as exact reals. */
  datatype Json =
    | JNull
    | JBool(b: bool)
    | JNum(n: real)
    | JStr(s: string)
    | JArr(items: seq<Json>)
    | JObj(fields: map<string, Json>)

  /** The data the creation schema lets through. */
  datatype CreateUserInput = CreateUserInput(
    username: string,
    avatar: int,
    ageRange: Option<string>,
    gender: Option<string>,
    topics: seq<string>)

  // ------------------------------------------------------------------ schema

  function Field(body: map<string, Json>, key: string): Option<Json> {
    if key in body then Some(body[key]) else None
  }

  /** `z.string().min(3).max(20).regex(/^[a-zA-Z0-9_-]+$/)`. */
  function ParseUsername(v: Option<Json>): (r: Option<string>)
    ensures r.Some? <==> v.Some? && v.value.JStr? && IsValidUsername(v.value.s)
    ensures r.Some? ==> r.value == v.value.s
  {
    match v
    case Some(JStr(s)) =>
      if 3 <= |s| <= 20 && forall i :: 0 <= i < |s| ==> IsUsernameChar(s[i]) then Some(s) else None
    case _ => None
  }

  /** `z.number().int().min(1).max(8)`. */
  function ParseAvatar(v: Option<Json>): (r: Option<int>)
    ensures r.Some? <==> v.Some? && v.value.JNum? && v.value.n == v.value.n.Floor as real
                         && 1 <= v.value.n.Floor <= 8
    ensures r.Some? ==> r.value as real == v.value.n
  {
    match v
    case Some(JNum(x)) =>
      if x.Floor as real == x && 1 <= x.Floor <= 8 then Some(x.Floor) else None
    case _ => None
  }

  /**
   * `z.string().optional()`: an absent field is accepted as absent, a string
   * as itself; anything else, `null` included, fails. The outer Option is the
   * parse verdict.
   */
  function ParseOptionalString(v: Option<Json>): (r: Option<Option<string>>)
    ensures r == Some(None) <==> v.None?
    ensures r.Some? && r.value.Some? <==> v.Some? && v.value.JStr?
    ensures r.Some? && r.value.Some? ==> r.value.value == v.value.s
  {
    match v
    case None => Some(None)
    case Some(JStr(s)) => Some(Some(s))
    case _ => None
  }

  /** Every item is a JSON string; their texts, in order. */
  function Strings(items: seq<Json>): (r: Option<seq<string>>)
    ensures r.Some? <==> forall i :: 0 <= i < |items| ==> items[i].JStr?
    ensures r.Some? ==> |r.value| == |items| && forall i :: 0 <= i < |items| ==> r.value[i] == items[i].s
  {
    if items == [] then Some([])
    else if !items[0].JStr? then None
    else
      match Strings(items[1..])
      case None => None
      case Some(rest) => Some([items[0].s] + rest)
  }

  /** `z.array(z.string()).min(1).max(10)`. */
  function ParseTopics(v: Option<Json>): (r: Option<seq<string>>)
    ensures r.Some? <==> v.Some? && v.value.JArr? && 1 <= |v.value.items| <= 10
                         && forall i :: 0 <= i < |v.value.items| ==> v.value.items[i].JStr?
    ensures r.Some? ==> |r.value| == |v.value.items|
                        && forall i :: 0 <= i < |r.value| ==> v.value.items[i] == JStr(r.value[i])
  {
    match v
    case Some(JArr(items)) =>
      if 1 <= |items| <= 10 then Strings(items) else None
    case _ => None
  }

  /** `createUserSchema.safeParse(body)`: every field must parse for the object to. */
  function ParseCreateUser(body: Json): (r: Option<CreateUserInput>)
    ensures r.Some? ==> body.JObj?
    ensures r.Some? ==> IsValidUsername(r.value.username)
                        && Field(body.fields, "username") == Some(JStr(r.value.username))
    ensures r.Some? ==> 1 <= r.value.avatar <= 8
                        && Field(body.fields, "avatar") == Some(JNum(r.value.avatar as real))
    ensures r.Some? ==> 1 <= |r.value.topics| <= 10
    ensures r.Some? ==> ParseTopics(Field(body.fields, "topics")) == Some(r.value.topics)
    ensures r.Some? ==> ParseOptionalString(Field(body.fields, "ageRange")) == Some(r.value.ageRange)
                        && ParseOptionalString(Field(body.fields, "gender")) == Some(r.value.gender)
    ensures r.Some? <==>
      && body.JObj?
      && ParseUsername(Field(body.fields, "username")).Some?
      && ParseAvatar(Field(body.fields, "avatar")).Some?
      && ParseOptionalString(Field(body.fields, "ageRange")).Some?
      && ParseOptionalString(Field(body.fields, "gender")).Some?
      && ParseTopics(Field(body.fields, "topics")).Some?
  {
    match body
    case JObj(m) =>
      var username := ParseUsername(Field(m, "username"));
      var avatar := ParseAvatar(Field(m, "avatar"));
      var ageRange := ParseOptionalString(Field(m, "ageRange"));
      var gender := ParseOptionalString(Field(m, "gender"));
      var topics := ParseTopics(Field(m, "topics"));
      if username.Some? && avatar.Some? && ageRange.Some? && gender.Some? && topics.Some? then
        Some(CreateUserInput(username.value, avatar.value, ageRange.value, gender.value, topics.value))
      else None
    case _ => None
  }

  /** An optional string field as the body carries it: absent, or a JSON string. */
  function OptionalJson(v: Option<string>): Option<Json> {
    if v.Some? then Some(JStr(v.value)) else None
  }

  /**
   * The partner of the parse: a body whose fields meet every bound, with each
   * optional field absent or a string, is accepted with exactly those values.
   */
  lemma ParseAcceptsWellFormed(m: map<string, Json>, username: string, avatar: int,
                               ageRange: Option<string>, gender: Option<string>, topics: seq<string>)
    requires IsValidUsername(username) && 1 <= avatar <= 8 && 1 <= |topics| <= 10
    requires Field(m, "username") == Some(JStr(username))
    requires Field(m, "avatar") == Some(JNum(avatar as real))
    requires Field(m, "topics") == Some(JArr(seq(|topics|, i requires 0 <= i < |topics| => JStr(topics[i]))))
    requires Field(m, "ageRange") == OptionalJson(ageRange)
    requires Field(m, "gender") == OptionalJson(gender)
    ensures ParseCreateUser(JObj(m)) == Some(CreateUserInput(username, avatar, ageRange, gender, topics))
  {
    var items := seq(|topics|, i requires 0 <= i < |topics| => JStr(topics[i]));
    var t := ParseTopics(Some(JArr(items)));
    assert t.Some?;
    assert t.value == topics;
  }

  /** `null` is not an absent optional field: it fails the schema. */
  lemma NullOptionalRejected(m: map<string, Json>)
    requires Field(m, "gender") == Some(JNull)
    ensures ParseCreateUser(JObj(m)).None?
  {
  }

  // ------------------------------------------------------------------- route

  /** The blocked substrings. */
  const InappropriateWords: seq<string> := ["test", "admin", "root"]

  /**
   * `inappropriateWords.some(word => username.toLowerCase().includes(word))`.
   * Every listed word has at least four letters, so no shorter name is blocked.
   */
  predicate HasInappropriateWord(username: string)
    ensures HasInappropriateWord(username) ==> |username| >= 4
  {
    var l := Lower(username);
    ContainsIsSubstring(l, "test");
    ContainsIsSubstring(l, "admin");
    ContainsIsSubstring(l, "root");
    Contains(l, "test") || Contains(l, "admin") || Contains(l, "root")
  }

  /** The blocklist check holds exactly when some listed word occurs in the folded name. */
  lemma InappropriateWordOccurs(username: string)
    ensures HasInappropriateWord(username) <==>
      exists k :: 0 <= k < |InappropriateWords| && IsSubstring(InappropriateWords[k], Lower(username))
  {
    var l := Lower(username);
    ContainsIsSubstring(l, "test");
    ContainsIsSubstring(l, "admin");
    ContainsIsSubstring(l, "root");
    assert InappropriateWords[0] == "test" && InappropriateWords[1] == "admin" && InappropriateWords[2] == "root";
  }

  /** The row inserted into the users table. */
  datatype UserRow = UserRow(
    username: string,
    avatar: int,
    ageRange: Option<string>,
    gender: Option<string>,
    topics: seq<string>,
    role: string)

  /** The fields the reply exposes. */
  datatype PublicUser = PublicUser(id: string, username: string, avatar: int, topics: seq<string>)

  datatype CreateFailure = InvalidInputData | InvalidUsernameFormat | InappropriateContent

  datatype CreateReply =
    | Rejected(status: int, failure: CreateFailure)
    | Created(row: UserRow, user: PublicUser)

  /** `ageRange ? sanitizeInput(ageRange) : undefined`: only a non-empty string is sanitised and kept. */
  function SanitizeOptional(v: Option<string>): (r: Option<string>)
    ensures r.Some? <==> v.Some? && v.value != ""
    ensures r.Some? ==> r.value == SanitizeInput(v.value) && NoAngles(r.value)
  {
    if v.Some? && v.value != "" then Some(SanitizeInput(v.value)) else None
  }

  /**
   * `POST`: schema, then sanitise, then `isValidUsername`, then the blocklist;
   * the first failure answers 400. `id` is the identifier the insert returns.
   */
  function CreateUser(body: Json, id: string): (r: CreateReply)
    ensures r.Rejected? ==> r.status == 400
    ensures r == Rejected(400, InvalidInputData) <==> ParseCreateUser(body).None?
  {
    match ParseCreateUser(body)
    case None => Rejected(400, InvalidInputData)
    case Some(input) =>
      var name := SanitizeInput(input.username);
      if !IsValidUsername(name) then Rejected(400, InvalidUsernameFormat)
      else if HasInappropriateWord(name) then Rejected(400, InappropriateContent)
      else
        var row := UserRow(name, input.avatar, SanitizeOptional(input.ageRange),
                           SanitizeOptional(input.gender), input.topics, "user");
        Created(row, PublicUser(id, row.username, row.avatar, row.topics))
  }

  /**
   * The username re-check is unreachable: a name the schema accepts comes out
   * of the sanitiser unchanged, so the route creates a user exactly when the
   * schema accepts the body and the name avoids the blocklist.
   */
  lemma UsernameRecheckNeverFails(body: Json, id: string)
    ensures CreateUser(body, id) != Rejected(400, InvalidUsernameFormat)
    ensures CreateUser(body, id).Created? <==>
      ParseCreateUser(body).Some? && !HasInappropriateWord(ParseCreateUser(body).value.username)
  {
    var p := ParseCreateUser(body);
    if p.Some? {
      SanitizeKeepsValidUsername(p.value.username);
    }
  }

  /**
   * What a created user looks like: the row holds the parsed name unchanged,
   * the parsed avatar and topics, the role "user", and optional fields only
   * when they were non-empty; the reply repeats the row's public fields.
   */
  lemma CreatedUserShape(body: Json, id: string)
    requires CreateUser(body, id).Created?
    ensures var input := ParseCreateUser(body).value;
            var r := CreateUser(body, id);
            && r.row.username == input.username && IsValidUsername(r.row.username)
            && r.row.avatar == input.avatar && 1 <= r.row.avatar <= 8
            && r.row.topics == input.topics && 1 <= |r.row.topics| <= 10
            && r.row.role == "user"
            && (r.row.ageRange.Some? <==> input.ageRange.Some? && input.ageRange.value != "")
            && (r.row.gender.Some? <==> input.gender.Some? && input.gender.value != "")
            && r.row.ageRange == SanitizeOptional(input.ageRange)
            && r.row.gender == SanitizeOptional(input.gender)
            && r.user == PublicUser(id, r.row.username, r.row.avatar, r.row.topics)
  {
    var input := ParseCreateUser(body).value;
    SanitizeKeepsValidUsername(input.username);
    var row := UserRow(input.username, input.avatar, SanitizeOptional(input.ageRange),
                       SanitizeOptional(input.gender), input.topics, "user");
    assert CreateUser(body, id) == Created(row, PublicUser(id, input.username, input.avatar, input.topics));
  }

  /** A schema-valid name containing a blocked word in any letter case is refused. */
  lemma BlockedWordRefused(body: Json, id: string, before: string, word: string, after: string)
    requires ParseCreateUser(body).Some?
    requires word in InappropriateWords
    requires Lower(ParseCreateUser(body).value.username) == before + word + after
    ensures CreateUser(body, id) == Rejected(400, InappropriateContent)
  {
    var name := ParseCreateUser(body).value.username;
    SanitizeKeepsValidUsername(name);
    var l := Lower(name);
    assert OccursAt(word, l, |before|) by {
      assert l[|before|..|before| + |word|] == word;
    }
    InappropriateWordOccurs(name);
    var k :| 0 <= k < |InappropriateWords| && InappropriateWords[k] == word;
  }

  /** "Contestant" passes the schema but contains "test" once folded, so it is refused. */
  lemma ContestantRefused(m: map<string, Json>, id: string)
    requires ParseCreateUser(JObj(m)).Some?
    requires Field(m, "username") == Some(JStr("Contestant"))
    ensures CreateUser(JObj(m), id) == Rejected(400, InappropriateContent)
  {
    var name := ParseCreateUser(JObj(m)).value.username;
    assert name == "Contestant";
    ContestantFolds();
    BlockedWordRefused(JObj(m), id, "con", "test", "ant");
  }

  lemma ContestantFolds()
    ensures Lower("Contestant") == "con" + "test" + "ant"
  {
  }
}
