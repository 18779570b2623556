/**
 * The five-step sign-up wizard: avatar, username, optional demographics,
 * topics and PIN. The page's state hooks are the fields of a class; the
 * click and input handlers are its methods. The two requests the last step
 * sends and the local-storage writes after them are outside the model: the
 * last step hands its payload back, and a failed request is reported through
 * `SubmissionFailed`.
 */
module Signup {
  import opened Wrappers
  import opened Text
  import opened Security
  import Users

  /** The topics the wizard offers. */
  datatype Topic = Trauma | Addiction | Anxiety | Depression | Relationships | Family | Work | Grief | Crisis {
    /** The id sent to the server. */
    function Id(): string {
      match this
      case Trauma => "trauma"
      case Addiction => "addiction"
      case Anxiety => "anxiety"
      case Depression => "depression"
      case Relationships => "relationships"
      case Family => "family"
      case Work => "work"
      case Grief => "grief"
      case Crisis => "crisis"
    }
  }

  const AllTopics: set<Topic> := {Trauma, Addiction, Anxiety, Depression, Relationships, Family, Work, Grief, Crisis}
  const AgeRanges: seq<string> := ["15-19", "20-25", "26-30", "31-35", "36+"]
  const Genders: seq<string> := ["Male", "Female"]
  const MaxUsernameInput: nat := 20
  const MaxPinInput: nat := 6

  /** The messages `handleNext` can show; `NoError` is the empty message. */
  datatype SignupError =
    | NoError | NoAvatar | UsernameTooShort | NoTopic | PinLength | PinMismatch | CreateFailed
  {
    function Message(): string {
      match this
      case NoError => ""
      case NoAvatar => "Please select an avatar"
      case UsernameTooShort => "Username must be at least 3 characters"
      case NoTopic => "Please select at least one topic"
      case PinLength => "PIN must be 4-6 digits"
      case PinMismatch => "PINs do not match"
      case CreateFailed => "Failed to create account. Please try again."
    }
  }

  // ------------------------------------------------------------------ topics

  predicate NoDuplicates<T(==)>(s: seq<T>) {
    forall i, j :: 0 <= i < j < |s| ==> s[i] != s[j]
  }

  /** `prev.filter((t) => t !== topic)`. */
  function RemoveAll(s: seq<Topic>, topic: Topic): (r: seq<Topic>)
    ensures forall x :: x in r <==> x in s && x != topic
    ensures |r| <= |s|
  {
    if s == [] then []
    else if s[0] == topic then RemoveAll(s[1..], topic)
    else [s[0]] + RemoveAll(s[1..], topic)
  }

  /** Removal works element by element, so the kept topics stay in their order. */
  lemma {:induction false} RemoveAllOfConcat(a: seq<Topic>, b: seq<Topic>, topic: Topic)
    ensures RemoveAll(a + b, topic) == RemoveAll(a, topic) + RemoveAll(b, topic)
    ensures |a| == 1 ==> RemoveAll(a, topic) == if a[0] == topic then [] else a
  {
    if a == [] {
      assert a + b == b;
    } else {
      var ab := a + b;
      assert ab[0] == a[0] && ab[1..] == a[1..] + b;
      var h := if a[0] == topic then [] else [a[0]];
      assert RemoveAll(ab, topic) == h + RemoveAll(a[1..] + b, topic);
      assert RemoveAll(a, topic) == h + RemoveAll(a[1..], topic);
      RemoveAllOfConcat(a[1..], b, topic);
      JoinAssociates(h, RemoveAll(a[1..], topic), RemoveAll(b, topic));
    }
  }

  lemma JoinAssociates<T>(a: seq<T>, b: seq<T>, c: seq<T>)
    ensures a + (b + c) == (a + b) + c
  {
  }

  /** Removing elements keeps a list free of duplicates. */
  lemma {:induction false} RemoveAllKeepsNoDuplicates(s: seq<Topic>, topic: Topic)
    requires NoDuplicates(s)
    ensures NoDuplicates(RemoveAll(s, topic))
  {
    if s != [] {
      assert NoDuplicates(s[1..]) by {
        forall i, j | 0 <= i < j < |s| - 1 ensures s[1..][i] != s[1..][j] {
          assert s[1..][i] == s[i + 1] && s[1..][j] == s[j + 1];
        }
      }
      RemoveAllKeepsNoDuplicates(s[1..], topic);
      if s[0] != topic {
        var rest := RemoveAll(s[1..], topic);
        assert s[0] !in s[1..] by {
          forall k | 0 <= k < |s| - 1 ensures s[1..][k] != s[0] {
            assert s[1..][k] == s[k + 1];
          }
        }
        assert s[0] !in rest;
        var r := [s[0]] + rest;
        forall i, j | 0 <= i < j < |r| ensures r[i] != r[j] {
          if i == 0 {
            assert r[j] == rest[j - 1];
          } else {
            assert r[i] == rest[i - 1] && r[j] == rest[j - 1];
          }
        }
      }
    }
  }

  /** `toggleTopic`: a present topic is removed, an absent one appended at the end. */
  function Toggled(s: seq<Topic>, topic: Topic): (r: seq<Topic>)
    ensures topic in r <==> topic !in s
    ensures forall x :: x != topic ==> (x in r <==> x in s)
    ensures topic !in s ==> r == s + [topic]
  {
    if topic in s then RemoveAll(s, topic) else s + [topic]
  }

  /** Toggling never introduces a duplicate. */
  lemma ToggleKeepsNoDuplicates(s: seq<Topic>, topic: Topic)
    requires NoDuplicates(s)
    ensures NoDuplicates(Toggled(s, topic))
  {
    if topic in s {
      RemoveAllKeepsNoDuplicates(s, topic);
    } else {
      var r := s + [topic];
      forall i, j | 0 <= i < j < |r| ensures r[i] != r[j] {
        if j == |s| {
          assert r[i] == s[i];
        } else {
          assert r[i] == s[i] && r[j] == s[j];
        }
      }
    }
  }

  /** Toggling an unselected topic twice restores the selection. */
  lemma {:induction false} ToggleTwiceRestores(s: seq<Topic>, topic: Topic)
    requires topic !in s
    ensures Toggled(Toggled(s, topic), topic) == s
  {
    RemoveAllAbsent(s, topic);
    RemoveAllAppended(s, topic);
  }

  lemma {:induction false} RemoveAllAbsent(s: seq<Topic>, topic: Topic)
    requires topic !in s
    ensures RemoveAll(s, topic) == s
  {
    if s != [] {
      RemoveAllAbsent(s[1..], topic);
      assert s == [s[0]] + s[1..];
    }
  }

  lemma {:induction false} RemoveAllAppended(s: seq<Topic>, topic: Topic)
    ensures RemoveAll(s + [topic], topic) == RemoveAll(s, topic)
  {
    if s == [] {
      assert RemoveAll([topic], topic) == RemoveAll([topic][1..], topic);
    } else {
      assert (s + [topic])[1..] == s[1..] + [topic];
      RemoveAllAppended(s[1..], topic);
    }
  }

  /** The elements of a duplicate-free list are as many as its length. */
  lemma {:induction false} DistinctCount(s: seq<Topic>)
    requires NoDuplicates(s)
    ensures |set x | x in s| == |s|
  {
    if s != [] {
      assert NoDuplicates(s[1..]) by {
        forall i, j | 0 <= i < j < |s| - 1 ensures s[1..][i] != s[1..][j] {
          assert s[1..][i] == s[i + 1] && s[1..][j] == s[j + 1];
        }
      }
      DistinctCount(s[1..]);
      assert s[0] !in s[1..] by {
        forall k | 0 <= k < |s| - 1 ensures s[1..][k] != s[0] {
          assert s[1..][k] == s[k + 1];
        }
      }
      assert (set x | x in s) == {s[0]} + (set x | x in s[1..]);
    }
  }

  /** A duplicate-free selection holds at most the nine offered topics. */
  lemma AtMostNineTopics(s: seq<Topic>)
    requires NoDuplicates(s)
    ensures |s| <= 9
  {
    DistinctCount(s);
    forall x | x in s ensures x in AllTopics {
      match x
      case Trauma => case Addiction => case Anxiety => case Depression => case Relationships =>
      case Family => case Work => case Grief => case Crisis =>
    }
    assert |AllTopics| == 9;
    SubsetCard((set x | x in s), AllTopics);
  }

  lemma SubsetCard(a: set<Topic>, b: set<Topic>)
    requires a <= b
    ensures |a| <= |b|
  {
    assert b == a + (b - a);
  }

  // -------------------------------------------------------------------- PIN

  /** `replace(/\D/g, "")`. */
  function DigitsOf(s: string): (r: string)
    ensures forall i :: 0 <= i < |r| ==> IsDigit(r[i])
    ensures forall c :: IsDigit(c) ==> multiset(r)[c] == multiset(s)[c]
    ensures |r| <= |s|
  {
    if s == [] then []
    else
      assert s == [s[0]] + s[1..];
      if IsDigit(s[0]) then [s[0]] + DigitsOf(s[1..]) else DigitsOf(s[1..])
  }

  /** The filter works character by character, so the digits keep their order. */
  lemma {:induction false} DigitsOfConcat(a: string, b: string)
    ensures DigitsOf(a + b) == DigitsOf(a) + DigitsOf(b)
    ensures |a| == 1 ==> DigitsOf(a) == if IsDigit(a[0]) then a else []
  {
    if a == [] {
      assert a + b == b;
    } else {
      var h := if IsDigit(a[0]) then [a[0]] else [];
      assert a + b == [a[0]] + (a[1..] + b);
      assert a == [a[0]] + a[1..];
      DigitsOfCons(a[0], a[1..] + b);
      DigitsOfCons(a[0], a[1..]);
      DigitsOfConcat(a[1..], b);
      JoinAssociates(h, DigitsOf(a[1..]), DigitsOf(b));
    }
  }

  lemma DigitsOfCons(c: char, s: string)
    ensures DigitsOf([c] + s) == (if IsDigit(c) then [c] else []) + DigitsOf(s)
  {
    assert ([c] + s)[1..] == s;
  }

  /** What a PIN field may hold: up to six digits. */
  predicate PinText(s: string) {
    |s| <= MaxPinInput && forall i :: 0 <= i < |s| ==> IsDigit(s[i])
  }

  /** The PIN fields' `onChange`: keep the digits, then the first six of them. */
  function PinInput(text: string): (r: string)
    ensures PinText(r)
    ensures |r| == if |DigitsOf(text)| <= MaxPinInput then |DigitsOf(text)| else MaxPinInput
    ensures r == DigitsOf(text)[..|r|]
  {
    var d := DigitsOf(text);
    if |d| <= MaxPinInput then d else d[..MaxPinInput]
  }

  lemma {:induction false} DigitsOfDigits(s: string)
    requires forall i :: 0 <= i < |s| ==> IsDigit(s[i])
    ensures DigitsOf(s) == s
  {
    if s != [] {
      DigitsOfDigits(s[1..]);
      assert s == [s[0]] + s[1..];
    }
  }

  /** Filtering a PIN field's own text changes nothing: the input handler is idempotent. */
  lemma PinInputIdempotent(text: string)
    ensures PinInput(PinInput(text)) == PinInput(text)
  {
    DigitsOfDigits(PinInput(text));
  }

  // ------------------------------------------------------------------- gate

  /**
   * `handleNext`'s checks for a step: the message it shows, or `NoError` when
   * the step may advance (or, on step 5, submit). The PIN is checked by length
   * only; equality with the confirmation comes second.
   */
  function NextGate(step: int, avatar: Option<int>, username: string, topics: seq<Topic>,
                    pin: string, confirmPin: string): (e: SignupError)
    ensures e != CreateFailed
    ensures step == 1 ==> (e == NoError <==> avatar.Some? && avatar.value != 0)
    ensures step == 2 ==> (e == NoError <==> |username| >= 3)
    ensures step == 3 ==> e == NoError
    ensures step == 4 ==> (e == NoError <==> topics != [])
    ensures step == 5 ==> (e == NoError <==> 4 <= |pin| <= 6 && pin == confirmPin)
    ensures step == 5 && !(4 <= |pin| <= 6) ==> e == PinLength
    ensures step == 1 && !(avatar.Some? && avatar.value != 0) ==> e == NoAvatar
    ensures step == 2 && |username| < 3 ==> e == UsernameTooShort
    ensures step == 4 && topics == [] ==> e == NoTopic
    ensures step == 5 && 4 <= |pin| <= 6 && pin != confirmPin ==> e == PinMismatch
    ensures !(1 <= step <= 5) ==> e == NoError
  {
    if step == 1 && (avatar.None? || avatar.value == 0) then NoAvatar
    else if step == 2 && |username| < 3 then UsernameTooShort
    else if step == 4 && |topics| == 0 then NoTopic
    else if step == 5 && (|pin| < 4 || |pin| > 6) then PinLength
    else if step == 5 && pin != confirmPin then PinMismatch
    else NoError
  }

  /** With the PIN field's filter in force, the length check is the full PIN rule. */
  lemma PinGateIsPinRule(avatar: Option<int>, username: string, topics: seq<Topic>, pin: string, confirmPin: string)
    requires PinText(pin)
    ensures NextGate(5, avatar, username, topics, pin, confirmPin) == NoError <==> IsValidPin(pin) && pin == confirmPin
  {
  }

  // ---------------------------------------------------------------- payload

  /** The body the last step posts to the user-creation route. */
  datatype SignupPayload = SignupPayload(
    username: string, avatar: int, ageRange: string, gender: string, topics: seq<Topic>)

  function TopicIds(topics: seq<Topic>): (r: seq<string>)
    ensures |r| == |topics| && forall i :: 0 <= i < |topics| ==> r[i] == topics[i].Id()
  {
    seq(|topics|, i requires 0 <= i < |topics| => topics[i].Id())
  }

  /** `JSON.stringify` of the payload, as the route parses it. */
  function PayloadJson(p: SignupPayload): Users.Json {
    var ids := TopicIds(p.topics);
    Users.JObj(map[
      "username" := Users.JStr(p.username),
      "avatar" := Users.JNum(p.avatar as real),
      "ageRange" := Users.JStr(p.ageRange),
      "gender" := Users.JStr(p.gender),
      "topics" := Users.JArr(seq(|ids|, i requires 0 <= i < |ids| => Users.JStr(ids[i])))])
  }

  /** The bounds the wizard guarantees for what it posts. */
  predicate PayloadInBounds(p: SignupPayload) {
    3 <= |p.username| <= MaxUsernameInput && 1 <= p.avatar <= 8
    && 1 <= |p.topics| <= 9 && NoDuplicates(p.topics)
  }

  /**
   * A payload within the wizard's bounds passes the route's schema as soon as
   * the username uses only letters, digits, '_' and '-' (the wizard checks the
   * length only); the route then sees exactly the payload's values.
   */
  lemma PayloadPassesSchema(p: SignupPayload)
    requires PayloadInBounds(p)
    requires forall i :: 0 <= i < |p.username| ==> IsUsernameChar(p.username[i])
    ensures var r := Users.ParseCreateUser(PayloadJson(p));
            && r.Some?
            && r.value == Users.CreateUserInput(p.username, p.avatar, Some(p.ageRange), Some(p.gender), TopicIds(p.topics))
  {
    var m := PayloadJson(p).fields;
    var ids := TopicIds(p.topics);
    var items := seq(|ids|, i requires 0 <= i < |ids| => Users.JStr(ids[i]));
    assert Users.Field(m, "topics") == Some(Users.JArr(items));
    var t := Users.ParseTopics(Some(Users.JArr(items)));
    assert t.Some? && t.value == ids;
  }

  /** A name of three spaces clears the wizard's length check but not the route's schema. */
  lemma SpacedNameRefusedByRoute(p: SignupPayload)
    requires p.username == "   "
    ensures NextGate(2, None, p.username, [], "", "") == NoError
    ensures Users.ParseCreateUser(PayloadJson(p)).None?
  {
    var m := PayloadJson(p).fields;
    assert Users.Field(m, "username") == Some(Users.JStr("   "));
    assert !IsUsernameChar(p.username[0]);
  }

  // ----------------------------------------------------------------- wizard

  class SignupWizard {
    var step: int
    var selectedAvatar: Option<int>
    var username: string
    var ageRange: string
    var gender: string
    var selectedTopics: seq<Topic>
    var pin: string
    var confirmPin: string
    var error: SignupError
    var loading: bool

    /**
     * What the handlers keep true: the step is 1..5; each field holds what its
     * control can produce; every step behind the current one has passed its
     * check.
     */
    predicate Valid()
      reads this
    {
      && 1 <= step <= 5
      && (selectedAvatar.Some? ==> 1 <= selectedAvatar.value <= 8)
      && |username| <= MaxUsernameInput
      && (ageRange == "" || ageRange in AgeRanges)
      && (gender == "" || gender in Genders)
      && NoDuplicates(selectedTopics)
      && PinText(pin) && PinText(confirmPin)
      && (step > 1 ==> selectedAvatar.Some?)
      && (step > 2 ==> |username| >= 3)
      && (step > 4 ==> selectedTopics != [])
    }

    constructor ()
      ensures Valid()
      ensures step == 1 && selectedAvatar == None && username == "" && ageRange == "" && gender == ""
      ensures selectedTopics == [] && pin == "" && confirmPin == "" && error == NoError && !loading
    {
      step := 1;
      selectedAvatar := None;
      username := "";
      ageRange := "";
      gender := "";
      selectedTopics := [];
      pin := "";
      confirmPin := "";
      error := NoError;
      loading := false;
    }

    /** Clicking avatar `n` on step 1. */
    method SelectAvatar(n: int)
      requires Valid() && step == 1 && 1 <= n <= 8
      modifies this
      ensures Valid()
      ensures selectedAvatar == Some(n)
      ensures step == old(step) && username == old(username) && selectedTopics == old(selectedTopics)
      ensures ageRange == old(ageRange) && gender == old(gender) && pin == old(pin)
      ensures confirmPin == old(confirmPin) && error == old(error) && loading == old(loading)
    {
      selectedAvatar := Some(n);
    }

    /** Typing in the username field on step 2, which holds at most 20 characters. */
    method SetUsername(text: string)
      requires Valid() && step == 2
      modifies this
      ensures Valid()
      ensures username == if |text| <= MaxUsernameInput then text else text[..MaxUsernameInput]
      ensures step == old(step) && selectedAvatar == old(selectedAvatar) && selectedTopics == old(selectedTopics)
      ensures ageRange == old(ageRange) && gender == old(gender) && pin == old(pin)
      ensures confirmPin == old(confirmPin) && error == old(error) && loading == old(loading)
    {
      username := if |text| <= MaxUsernameInput then text else text[..MaxUsernameInput];
    }

    /** Clicking an age range on step 3: selects it, or clears it when it was selected. */
    method SetAgeRange(range: string)
      requires Valid() && step == 3 && range in AgeRanges
      modifies this
      ensures Valid()
      ensures ageRange == if old(ageRange) == range then "" else range
      ensures step == old(step) && selectedAvatar == old(selectedAvatar) && selectedTopics == old(selectedTopics)
      ensures username == old(username) && gender == old(gender) && pin == old(pin)
      ensures confirmPin == old(confirmPin) && error == old(error) && loading == old(loading)
    {
      ageRange := if ageRange == range then "" else range;
    }

    /** Clicking a gender on step 3: selects it, or clears it when it was selected. */
    method SetGender(g: string)
      requires Valid() && step == 3 && g in Genders
      modifies this
      ensures Valid()
      ensures gender == if old(gender) == g then "" else g
      ensures step == old(step) && selectedAvatar == old(selectedAvatar) && selectedTopics == old(selectedTopics)
      ensures username == old(username) && ageRange == old(ageRange) && pin == old(pin)
      ensures confirmPin == old(confirmPin) && error == old(error) && loading == old(loading)
    {
      gender := if gender == g then "" else g;
    }

    /** `toggleTopic` on step 4. */
    method ToggleTopic(topic: Topic)
      requires Valid() && step == 4
      modifies this
      ensures Valid()
      ensures selectedTopics == Toggled(old(selectedTopics), topic)
      ensures |selectedTopics| <= 9
      ensures step == old(step) && selectedAvatar == old(selectedAvatar) && username == old(username)
      ensures ageRange == old(ageRange) && gender == old(gender) && pin == old(pin)
      ensures confirmPin == old(confirmPin) && error == old(error) && loading == old(loading)
    {
      ToggleKeepsNoDuplicates(selectedTopics, topic);
      selectedTopics := Toggled(selectedTopics, topic);
      AtMostNineTopics(selectedTopics);
    }

    /** Typing in the PIN field on step 5. */
    method SetPin(text: string)
      requires Valid() && step == 5
      modifies this
      ensures Valid()
      ensures pin == PinInput(text)
      ensures step == old(step) && selectedAvatar == old(selectedAvatar) && username == old(username)
      ensures ageRange == old(ageRange) && gender == old(gender) && selectedTopics == old(selectedTopics)
      ensures confirmPin == old(confirmPin) && error == old(error) && loading == old(loading)
    {
      pin := PinInput(text);
    }

    /** Typing in the confirmation field on step 5. */
    method SetConfirmPin(text: string)
      requires Valid() && step == 5
      modifies this
      ensures Valid()
      ensures confirmPin == PinInput(text)
      ensures step == old(step) && selectedAvatar == old(selectedAvatar) && username == old(username)
      ensures ageRange == old(ageRange) && gender == old(gender) && selectedTopics == old(selectedTopics)
      ensures pin == old(pin) && error == old(error) && loading == old(loading)
    {
      confirmPin := PinInput(text);
    }

    /**
     * `handleNext`: clears the error, then either shows the gate's message,
     * advances one step, or (on step 5) starts loading and hands back the
     * payload to post. A submitted payload is within the wizard's bounds and
     * its PIN obeys the PIN rule.
     */
    method HandleNext() returns (submitted: Option<SignupPayload>)
      requires Valid() && !loading
      modifies this
      ensures Valid()
      ensures var e := NextGate(old(step), old(selectedAvatar), old(username), old(selectedTopics), old(pin), old(confirmPin));
              && error == e
              && step == (if e == NoError && old(step) < 5 then old(step) + 1 else old(step))
              && loading == (e == NoError && old(step) == 5)
              && (submitted.Some? <==> e == NoError && old(step) == 5)
      ensures submitted.Some? ==>
              && submitted.value == SignupPayload(username, selectedAvatar.value, ageRange, gender, selectedTopics)
              && PayloadInBounds(submitted.value)
              && IsValidPin(pin) && pin == confirmPin
      ensures selectedAvatar == old(selectedAvatar) && username == old(username) && ageRange == old(ageRange)
      ensures gender == old(gender) && selectedTopics == old(selectedTopics)
      ensures pin == old(pin) && confirmPin == old(confirmPin)
    {
      error := NoError;
      submitted := None;
      var e := NextGate(step, selectedAvatar, username, selectedTopics, pin, confirmPin);
      if e != NoError {
        error := e;
      } else if step == 5 {
        loading := true;
        AtMostNineTopics(selectedTopics);
        submitted := Some(SignupPayload(username, selectedAvatar.value, ageRange, gender, selectedTopics));
      } else {
        step := step + 1;
      }
    }

    /** `handleBack`: clears the error and goes back one step. */
    method HandleBack()
      requires Valid() && step > 1 && !loading
      modifies this
      ensures Valid()
      ensures step == old(step) - 1 && error == NoError
      ensures selectedAvatar == old(selectedAvatar) && username == old(username) && ageRange == old(ageRange)
      ensures gender == old(gender) && selectedTopics == old(selectedTopics)
      ensures pin == old(pin) && confirmPin == old(confirmPin) && loading == old(loading)
    {
      error := NoError;
      step := step - 1;
    }

    /** "Skip this step" on step 3. */
    method Skip()
      requires Valid() && step == 3
      modifies this
      ensures Valid()
      ensures step == 4
      ensures selectedAvatar == old(selectedAvatar) && username == old(username) && ageRange == old(ageRange)
      ensures gender == old(gender) && selectedTopics == old(selectedTopics)
      ensures pin == old(pin) && confirmPin == old(confirmPin) && error == old(error) && loading == old(loading)
    {
      step := 4;
    }

    /** A failed creation request: the error is shown and the buttons come back. */
    method SubmissionFailed()
      requires Valid() && loading
      modifies this
      ensures Valid()
      ensures error == CreateFailed && !loading && step == old(step)
      ensures selectedAvatar == old(selectedAvatar) && username == old(username) && ageRange == old(ageRange)
      ensures gender == old(gender) && selectedTopics == old(selectedTopics)
      ensures pin == old(pin) && confirmPin == old(confirmPin)
    {
      error := CreateFailed;
      loading := false;
    }
  }
}
