/** The sign-up page: the provisional identity string shown while the name is
    typed, and the submit handler with its re-entry guard. */
module SignupPage {
  import opened Common
  import opened Types

  /** The identity shown while the name is too short to derive one. */
  const PendingUid: string := "FL-ID-PENDING"

  /** The bio every new profile row starts with. */
  const DefaultBio: string := "Blue Network Member"

  /** A character of the middle segment: upper-cased, whitespace masked as 'X'. */
  function MaskChar(c: char): (r: char)
    ensures !IsWhitespace(r)
  {
    var u := UpperChar(c);
    if IsWhitespace(u) then 'X' else u
  }

  /** `name.substring(0, 3).toUpperCase().replace(/\s/g, 'X')`. */
  function Middle(name: string): (m: string)
    ensures |m| == if |name| < 3 then |name| else 3
    ensures forall i :: 0 <= i < |m| ==> m[i] == MaskChar(name[i])
  {
    var head := if |name| < 3 then name else name[..3];
    seq(|head|, i requires 0 <= i < |head| => MaskChar(head[i]))
  }

  /** The provisional uid for `name`. `draw` stands for
      `Math.floor(Math.random() * 9000)`, so the suffix `1000 + draw` lies in
      1000..9999. */
  function ProvisionalUid(name: string, draw: nat): (uid: string)
    requires draw < 9000
    ensures |name| <= 1 ==> uid == PendingUid
  {
    if |name| > 1 then "FL-" + Middle(name) + "-" + Decimal(1000 + draw) else PendingUid
  }

  /** The shape of a derived uid: "FL-", then min(3, |name|) upper-cased
      characters none of which is whitespace, then "-" and four digits that read
      back as the suffix. */
  lemma ProvisionalUidShape(name: string, draw: nat)
    requires draw < 9000 && |name| > 1
    ensures var uid := ProvisionalUid(name, draw);
      var m := if |name| < 3 then |name| else 3;
      && |uid| == 3 + m + 5
      && uid[..3] == "FL-"
      && (forall i :: 3 <= i < 3 + m ==> !IsWhitespace(uid[i]) && uid[i] == MaskChar(name[i - 3]))
      && uid[3 + m] == '-'
      && (forall i :: 3 + m < i < |uid| ==> IsDigit(uid[i]))
      && ParseDecimal(uid[3 + m + 1..]) == 1000 + draw
  {
    var uid := ProvisionalUid(name, draw);
    var mid := Middle(name);
    FourDigits(1000 + draw);
    DecimalRoundTrip(1000 + draw);
    assert uid[3 + |mid| + 1..] == Decimal(1000 + draw);
    forall i | 3 <= i < 3 + |mid| ensures uid[i] == mid[i - 3] {
    }
  }

  /** A derived uid is never the pending sentinel, so a user who typed a name
      of two or more characters always sees a real identity. */
  lemma DerivedUidIsNotPending(name: string, draw: nat)
    requires draw < 9000 && |name| > 1
    ensures ProvisionalUid(name, draw) != PendingUid
  {
    ProvisionalUidShape(name, draw);
    assert |PendingUid| == 13;
  }

  // ---------------------------------------------------------------------------
  // Submitting

  datatype SignupState = SignupState(
    name: string,
    email: string,
    password: string,
    photo: string,
    tempUid: string,
    isVerifying: bool,
    error: string)

  /** Typing a name re-derives the provisional uid from a fresh draw. */
  function SetName(s: SignupState, name: string, draw: nat): (r: SignupState)
    requires draw < 9000
    ensures r.name == name && r.tempUid == ProvisionalUid(name, draw)
    ensures r.(name := s.name, tempUid := s.tempUid) == s
  {
    s.(name := name, tempUid := ProvisionalUid(name, draw))
  }

  /** The `profiles` row created for a new account. */
  datatype ProfileInsert = ProfileInsert(id: string, uid: string, name: string, profilePhoto: string, bio: string)

  /** `row` is the `profiles` row the backend holds after inserting `ins`. */
  predicate Stores(row: ProfileRow, ins: ProfileInsert) {
    && row.id == ins.id && row.uid == ins.uid && row.name == ins.name
    && row.profilePhoto == ins.profilePhoto && row.bio == Some(ins.bio)
  }

  /** What a submit does: the next state, the profile row inserted and the user
      handed to the app shell (both only after a sign-up that returns a user). */
  datatype SignupOutcome = SignupOutcome(state: SignupState, insert: Option<ProfileInsert>, signedUp: Option<User>)

  /** `handleSubmit`, given the auth sign-up reply (the new account's id, or
      none when the reply carries no user) and the clock. The reply of the
      profile insert is not consulted by the source, so it is not a parameter. */
  function Submit(s: SignupState, auth: Remote<Option<string>>, now: int): (r: SignupOutcome)
    ensures s.isVerifying ==> r == SignupOutcome(s, None, None)
    ensures !s.isVerifying ==> r.state.error == (if auth.Err? then auth.message else "")
    ensures !s.isVerifying ==> (r.state.isVerifying <==> auth.Ok?)
    ensures r.state.(isVerifying := s.isVerifying, error := s.error) == s
    ensures r.insert.Some? <==> !s.isVerifying && auth.Ok? && auth.data.Some?
    ensures r.insert.Some? <==> r.signedUp.Some?
    ensures r.insert.Some? ==>
      && r.insert.value == ProfileInsert(auth.data.value, s.tempUid, s.name, s.photo, DefaultBio)
      && r.signedUp.value.uid == r.insert.value.uid
      && r.signedUp.value.dbId == Some(r.insert.value.id)
      && r.signedUp.value.joinedAt == now
  {
    if s.isVerifying then SignupOutcome(s, None, None)
    else
      var busy := s.(isVerifying := true, error := "");
      match auth
      case Err(msg) => SignupOutcome(busy.(error := msg, isVerifying := false), None, None)
      case Ok(None) => SignupOutcome(busy, None, None)
      case Ok(Some(id)) =>
        SignupOutcome(
          busy,
          Some(ProfileInsert(id, s.tempUid, s.name, s.photo, DefaultBio)),
          Some(User(s.tempUid, Some(id), s.name, s.email, s.photo, None, None, now, [], [])))
  }

  /** A second submit while the first is still verifying does nothing, so a
      double press cannot create two profile rows. */
  lemma SubmitIsNotReentrant(s: SignupState, a1: Remote<Option<string>>, a2: Remote<Option<string>>, t1: int, t2: int)
    requires !s.isVerifying && a1.Ok?
    ensures Submit(Submit(s, a1, t1).state, a2, t2).insert.None?
    ensures Submit(Submit(s, a1, t1).state, a2, t2).state == Submit(s, a1, t1).state
  {
  }

  /** After a failed sign-up the form accepts a new submit. */
  lemma FailureAllowsRetry(s: SignupState, msg: string, a2: Remote<Option<string>>, t1: int, t2: int)
    requires !s.isVerifying
    ensures !Submit(s, Err(msg), t1).state.isVerifying
    ensures Submit(Submit(s, Err(msg), t1).state, a2, t2).insert.Some? <==> a2.Ok? && a2.data.Some?
  {
  }
}
