/** The back-end's account service: sign-up with e-mail verification, login, password reset
    by one-time code, Google sign-in, and the user's last chat session. The database is two
    in-memory tables (`users`, `password_resets`) plus the JSON file the last session falls
    back to. The clock is an integer number of seconds; random draws, fresh identifiers,
    hashing, validators and token minting are parameters. */
module AccountService {
  import opened Common

  /** A timestamp column as `datetime.fromisoformat` reads it: a point in time (naive values
      taken as UTC), or text it cannot parse. */
  datatype Stamp = At(t: int) | Unparseable

  /** A row of `users`. A null or empty `otp_expires_at` is `None`. */
  datatype UserRow = UserRow(id: string, email: string, passwordHash: string, fullName: Option<string>,
                             isActive: bool, isVerified: bool, otp: Option<string>,
                             otpExpiresAt: Option<Stamp>, createdAt: int, updatedAt: int,
                             lastSessionId: Option<string>)

  /** A row of `password_resets`; the code is kept in `token`. */
  datatype ResetRow = ResetRow(id: string, userId: string, token: string, expiresAt: Stamp,
                               createdAt: int, used: bool)

  /** The local JSON file of last sessions: absent, unreadable, or a user-to-session map. */
  datatype SessionFile = Missing | Corrupt | Entries(m: map<string, string>)

  /** The user fields the service hands back. */
  datatype UserResponse = UserResponse(id: string, email: string, fullName: Option<string>,
                                       isActive: bool, createdAt: int)

  function Response(u: UserRow): UserResponse
  {
    UserResponse(u.id, u.email, u.fullName, u.isActive, u.createdAt)
  }

  /** Which database call of an operation fails, numbering the calls from 0 in the order the
      operation makes them: it raises, or (for an insert) returns no data. */
  datatype Fault = NoFault | Raises(call: nat) | EmptyReply(call: nat)

  /** The collaborators the service calls but this model does not look into. */
  datatype Deps = Deps(emailFormatValid: string -> bool,
                       validatePassword: string -> (bool, string),
                       hashPassword: string -> string,
                       verifyPassword: (string, string) -> bool,
                       createAccessToken: string -> string,
                       otpExpireMinutes: nat)

  function OtpLifetime(deps: Deps): nat
  {
    60 * deps.otpExpireMinutes
  }

  function Pow10(n: nat): (p: nat)
    ensures p >= 1
  {
    if n == 0 then 1 else 10 * Pow10(n - 1)
  }

  /** `v` written with exactly `width` decimal digits, zero-padded on the left. */
  function Digits(v: nat, width: nat): (s: string)
    requires v < Pow10(width)
    ensures |s| == width && AllDigits(s)
    ensures DigitsValue(s) == v
  {
    if width == 0 then []
    else
      var s := Digits(v / 10, width - 1) + [DigitChar(v % 10)];
      assert s[..|s| - 1] == Digits(v / 10, width - 1);
      s
  }

  /** `_generate_otp`: six draws from the decimal digits, which is the zero-padded value of
      one draw below 10^6. */
  function GenerateOtp(draw: nat): (otp: string)
    ensures |otp| == 6 && AllDigits(otp)
    ensures DigitsValue(otp) == draw % 1000000
  {
    assert Pow10(6) == 1000000;
    Digits(draw % 1000000, 6)
  }

  /** Every six-digit code can be drawn. */
  lemma {:induction false} EveryCodeDrawable(code: string)
    requires |code| == 6 && AllDigits(code)
    ensures GenerateOtp(DigitsValue(code)) == code
  {
    DigitsBelow(code);
    assert Pow10(6) == 1000000;
    DigitsInjective(GenerateOtp(DigitsValue(code)), code);
  }

  lemma {:induction false} DigitsBelow(s: string)
    requires AllDigits(s)
    ensures DigitsValue(s) < Pow10(|s|)
  {
    if s != [] {
      DigitsBelow(s[..|s| - 1]);
    }
  }

  lemma {:induction false} DigitsInjective(s: string, t: string)
    requires AllDigits(s) && AllDigits(t) && |s| == |t| && DigitsValue(s) == DigitsValue(t)
    ensures s == t
  {
    if s != [] {
      var ls, lt := s[|s| - 1] as int - '0' as int, t[|t| - 1] as int - '0' as int;
      assert DigitsValue(s) % 10 == ls;
      assert DigitsValue(t) % 10 == lt;
      DigitsInjective(s[..|s| - 1], t[..|t| - 1]);
      assert s == s[..|s| - 1] + [s[|s| - 1]];
      assert t == t[..|t| - 1] + [t[|t| - 1]];
    }
  }

  /** `select(...).eq("email", email)`, first row. */
  function FindByEmail(users: seq<UserRow>, email: string): (i: Option<nat>)
    ensures i.Some? ==> i.value < |users| && users[i.value].email == email
                        && forall j :: 0 <= j < i.value ==> users[j].email != email
    ensures i.None? ==> forall j :: 0 <= j < |users| ==> users[j].email != email
  {
    if users == [] then None
    else if users[0].email == email then Some(0)
    else match FindByEmail(users[1..], email)
      case None => None
      case Some(k) => Some(k + 1)
  }

  /** `select(...).eq("id", id)`, first row. */
  function FindById(users: seq<UserRow>, id: string): (i: Option<nat>)
    ensures i.Some? ==> i.value < |users| && users[i.value].id == id
                        && forall j :: 0 <= j < i.value ==> users[j].id != id
    ensures i.None? ==> forall j :: 0 <= j < |users| ==> users[j].id != id
  {
    if users == [] then None
    else if users[0].id == id then Some(0)
    else match FindById(users[1..], id)
      case None => None
      case Some(k) => Some(k + 1)
  }

  /** The column updates the service makes to `users`; each also stamps `updated_at`. */
  datatype Patch = OtpPatch(otp: string, expiresAt: int) | VerifyPatch | GoogleVerifyPatch
                 | PasswordPatch(hash: string) | SessionPatch(sessionId: string)

  function ApplyPatch(u: UserRow, p: Patch, now: int): (v: UserRow)
    ensures v.id == u.id && v.email == u.email && v.createdAt == u.createdAt && v.updatedAt == now
  {
    match p
    case OtpPatch(otp, exp) => u.(otp := Some(otp), otpExpiresAt := Some(At(exp)), updatedAt := now)
    case VerifyPatch => u.(isVerified := true, isActive := true, otp := None, otpExpiresAt := None, updatedAt := now)
    case GoogleVerifyPatch => u.(isVerified := true, isActive := true, updatedAt := now)
    case PasswordPatch(h) => u.(passwordHash := h, updatedAt := now)
    case SessionPatch(s) => u.(lastSessionId := Some(s), updatedAt := now)
  }

  /** `update(...).eq("id", id)`: every row with that id, and no other. */
  function UpdateById(users: seq<UserRow>, id: string, p: Patch, now: int): (r: seq<UserRow>)
    ensures |r| == |users|
    ensures forall k :: 0 <= k < |users| ==>
              r[k] == if users[k].id == id then ApplyPatch(users[k], p, now) else users[k]
  {
    seq(|users|, k requires 0 <= k < |users| => if users[k].id == id then ApplyPatch(users[k], p, now) else users[k])
  }

  /** No two users share an address. */
  predicate UniqueEmails(users: seq<UserRow>)
  {
    forall i, j :: 0 <= i < j < |users| ==> users[i].email != users[j].email
  }

  /** A row for a new address is found at the end. */
  lemma {:induction false} FindAppended(users: seq<UserRow>, row: UserRow)
    requires FindByEmail(users, row.email).None?
    ensures FindByEmail(users + [row], row.email) == Some(|users|)
  {
    if users != [] {
      assert (users + [row])[1..] == users[1..] + [row];
      FindAppended(users[1..], row);
    }
  }

  /** A row for a new address is found at the end and keeps the addresses unique. */
  lemma AppendUnique(users: seq<UserRow>, row: UserRow)
    requires UniqueEmails(users) && FindByEmail(users, row.email).None?
    ensures UniqueEmails(users + [row])
    ensures FindByEmail(users + [row], row.email) == Some(|users|)
  {
    var r := users + [row];
    forall i, j | 0 <= i < j < |r|
      ensures r[i].email != r[j].email
    {
      if j < |users| {
        assert r[i] == users[i] && r[j] == users[j];
      } else {
        assert r[i] == users[i] && r[j] == row;
      }
    }
    FindAppended(users, row);
  }

  /** Giving an unverified account a fresh code keeps it where it was, unverified, with
      that code and expiry. */
  lemma ResendKeepsRow(users: seq<UserRow>, i: nat, email: string, otp: string, expiry: int, now: int)
    requires UniqueEmails(users) && FindByEmail(users, email) == Some(i) && !users[i].isVerified
    ensures var r := UpdateById(users, users[i].id, OtpPatch(otp, expiry), now);
            && UniqueEmails(r) && FindByEmail(r, email) == Some(i)
            && r[i] == ApplyPatch(users[i], OtpPatch(otp, expiry), now)
            && r[i].otp == Some(otp) && r[i].otpExpiresAt == Some(At(expiry)) && !r[i].isVerified
  {
    UpdateKeepsEmails(users, users[i].id, OtpPatch(otp, expiry), now);
  }

  lemma UpdateKeepsEmails(users: seq<UserRow>, id: string, p: Patch, now: int)
    requires UniqueEmails(users)
    ensures UniqueEmails(UpdateById(users, id, p, now))
    ensures forall e :: FindByEmail(UpdateById(users, id, p, now), e) == FindByEmail(users, e)
  {
    var r := UpdateById(users, id, p, now);
    forall e ensures FindByEmail(r, e) == FindByEmail(users, e) {
      FindByEmailSameColumn(users, r, e);
    }
  }

  lemma {:induction false} FindByEmailSameColumn(a: seq<UserRow>, b: seq<UserRow>, e: string)
    requires |a| == |b| && forall k :: 0 <= k < |a| ==> a[k].email == b[k].email
    ensures FindByEmail(a, e) == FindByEmail(b, e)
  {
    if a != [] {
      FindByEmailSameColumn(a[1..], b[1..], e);
    }
  }

  // ---------------------------------------------------------------- e-mail verification

  /** What `verify_email` decides about the row found for the address, in its order: an
      already verified account succeeds without looking at the code; then the code, the
      presence of an expiry, its parse, and the clock. */
  datatype VerifyStep = AlreadyVerified | Refuse(message: string) | ParseFailure | Accept

  function VerifyDecision(u: UserRow, otp: string, now: int): (d: VerifyStep)
    ensures u.isVerified ==> d == AlreadyVerified
    ensures !u.isVerified && u.otp != Some(otp) ==> d == Refuse("Invalid OTP")
    ensures d == Accept <==>
              !u.isVerified && u.otp == Some(otp) && u.otpExpiresAt.Some? && u.otpExpiresAt.value.At?
              && now <= u.otpExpiresAt.value.t
  {
    if u.isVerified then AlreadyVerified
    else if u.otp != Some(otp) then Refuse("Invalid OTP")
    else if u.otpExpiresAt.None? then Refuse("Invalid OTP state")
    else match u.otpExpiresAt.value
      case Unparseable => ParseFailure
      case At(t) => if now > t then Refuse("OTP expired") else Accept
  }

  /** A verification clears the code, so the same code is never accepted twice, and the
      account then reports that it is already verified. */
  lemma VerifiedOnce(u: UserRow, otp: string, now: int, later: int)
    requires VerifyDecision(u, otp, now) == Accept
    ensures VerifyDecision(ApplyPatch(u, VerifyPatch, now), otp, later) == AlreadyVerified
    ensures ApplyPatch(u, VerifyPatch, now).isActive && ApplyPatch(u, VerifyPatch, now).otp.None?
  {
  }

  /** A code from sign-up is accepted until its expiry, inclusive, and refused after. */
  lemma {:induction false} FreshCodeAccepted(u: UserRow, otp: string, issued: int, lifetime: nat, now: int)
    requires !u.isVerified
    ensures VerifyDecision(ApplyPatch(u, OtpPatch(otp, issued + lifetime), issued), otp, now)
            == (if now <= issued + lifetime then Accept else Refuse("OTP expired"))
  {
    var v := ApplyPatch(u, OtpPatch(otp, issued + lifetime), issued);
    assert v.otp == Some(otp) && v.otpExpiresAt == Some(At(issued + lifetime));
  }

  // ---------------------------------------------------------------- login

  datatype LoginResult = LoginResult(success: bool, message: string, user: Option<UserResponse>,
                                     token: Option<string>)

  const BadCredentials := "Invalid email or password"

  function LoginFailure(message: string): LoginResult
  {
    LoginResult(false, message, None, None)
  }

  /** `login`: a read of `users` only. Every way of getting the address or the password
      wrong gives the same message; an inactive account is refused before the password is
      looked at. */
  function Login(users: seq<UserRow>, deps: Deps, email: string, password: string, fault: Fault): (r: LoginResult)
    ensures r.success <==>
              && email != "" && password != "" && deps.emailFormatValid(email) && fault != Raises(0)
              && FindByEmail(users, email).Some?
              && users[FindByEmail(users, email).value].isActive
              && deps.verifyPassword(password, users[FindByEmail(users, email).value].passwordHash)
    ensures r.success ==>
              var u := users[FindByEmail(users, email).value];
              r == LoginResult(true, "Login successful", Some(Response(u)), Some(deps.createAccessToken(u.id)))
    ensures !r.success ==> r.user.None? && r.token.None?
    ensures !r.success ==> r.message in {BadCredentials, "Internal server error", "User account is inactive"}
    ensures r.message == "User account is inactive" ==>
              FindByEmail(users, email).Some? && !users[FindByEmail(users, email).value].isActive
  {
    if email == "" || password == "" || !deps.emailFormatValid(email) then LoginFailure(BadCredentials)
    else if fault == Raises(0) then LoginFailure("Internal server error")
    else match FindByEmail(users, email)
      case None => LoginFailure(BadCredentials)
      case Some(i) =>
        var u := users[i];
        if !u.isActive then LoginFailure("User account is inactive")
        else if !deps.verifyPassword(password, u.passwordHash) then LoginFailure(BadCredentials)
        else LoginResult(true, "Login successful", Some(Response(u)), Some(deps.createAccessToken(u.id)))
  }

  /** A caller cannot tell an unknown address from a wrong password. */
  lemma {:induction false} LoginHidesAccounts(users: seq<UserRow>, deps: Deps, email: string, password: string,
                                              other: string, fault: Fault)
    requires email != "" && password != "" && deps.emailFormatValid(email) && fault != Raises(0)
    requires FindByEmail(users, email).Some?
    requires users[FindByEmail(users, email).value].isActive
    requires !deps.verifyPassword(password, users[FindByEmail(users, email).value].passwordHash)
    requires FindByEmail(users, other).None? && other != "" && deps.emailFormatValid(other)
    ensures Login(users, deps, email, password, fault) == Login(users, deps, other, password, fault)
  {
  }

  // ---------------------------------------------------------------- password reset

  predicate ResetMatches(r: ResetRow, userId: string, otp: string)
  {
    r.userId == userId && r.token == otp && !r.used
  }

  /** The query `eq(user_id).eq(token).eq(used, False).order(created_at, desc).limit(1)`:
      the newest unused row for the user and the code (the earliest such row among equally
      new ones). */
  function NewestUnused(resets: seq<ResetRow>, userId: string, otp: string): (i: Option<nat>)
    ensures i.Some? ==> i.value < |resets| && ResetMatches(resets[i.value], userId, otp)
    ensures i.Some? ==> forall j :: 0 <= j < |resets| && ResetMatches(resets[j], userId, otp) ==>
                          resets[j].createdAt <= resets[i.value].createdAt
    ensures i.None? <==> forall j :: 0 <= j < |resets| ==> !ResetMatches(resets[j], userId, otp)
  {
    if resets == [] then None
    else
      var last := |resets| - 1;
      var rest := NewestUnused(resets[..last], userId, otp);
      assert forall j :: 0 <= j < last ==> resets[..last][j] == resets[j];
      if ResetMatches(resets[last], userId, otp) && (rest.None? || resets[last].createdAt > resets[rest.value].createdAt)
      then Some(last)
      else rest
  }

  /** The expiry check of a reset row: a date that does not parse is refused as an invalid
      code, a past one as expired. */
  function ResetExpiry(expiresAt: Stamp, now: int): (err: Option<string>)
    ensures err.None? <==> expiresAt.At? && now <= expiresAt.t
  {
    match expiresAt
    case Unparseable => Some("Invalid OTP")
    case At(t) => if now > t then Some("OTP expired") else None
  }

  /** Marks the chosen reset row used. The table update selects rows by id; addressing the
      row by position agrees with it while reset ids are unique. */
  function MarkUsed(resets: seq<ResetRow>, i: nat): (r: seq<ResetRow>)
    requires i < |resets|
    ensures |r| == |resets| && r[i] == resets[i].(used := true)
    ensures forall k :: 0 <= k < |resets| && k != i ==> r[k] == resets[k]
  {
    resets[i := resets[i].(used := true)]
  }

  /** Once a reset has consumed a row, that row is never chosen again; when it was the only
      unused row for the user and the code, the code no longer works at all. */
  lemma {:induction false} ResetCodeSingleUse(resets: seq<ResetRow>, userId: string, otp: string)
    requires NewestUnused(resets, userId, otp).Some?
    ensures var i := NewestUnused(resets, userId, otp).value;
            NewestUnused(MarkUsed(resets, i), userId, otp) != Some(i)
    ensures var i := NewestUnused(resets, userId, otp).value;
            (forall j :: 0 <= j < |resets| && j != i ==> !ResetMatches(resets[j], userId, otp)) ==>
              NewestUnused(MarkUsed(resets, i), userId, otp).None?
  {
    var i := NewestUnused(resets, userId, otp).value;
    var after := MarkUsed(resets, i);
    assert !ResetMatches(after[i], userId, otp);
  }

  // ---------------------------------------------------------------- results

  datatype SignupResult = SignupResult(success: bool, message: string, user: Option<UserResponse>,
                                       otp: Option<string>)

  datatype Status = Status(success: bool, message: string)

  datatype ResetRequestResult = ResetRequestResult(success: bool, message: string, otp: Option<string>)

  /** What the Google sign-in reports about the user. */
  datatype GoogleInfo = GoogleInfo(email: Option<string>, displayName: Option<string>, firstName: Option<string>)

  const AlreadyExists := "User with this email already exists"
  const ResetAcknowledged := "If user exists, password reset OTP will be sent"

  /** The file's entries, or none when it is missing or unreadable. */
  function FileEntries(f: SessionFile): map<string, string>
  {
    if f.Entries? then f.m else map[]
  }

  function LocalSession(f: SessionFile, userId: string): (s: Option<string>)
    ensures s.Some? <==> f.Entries? && userId in f.m
    ensures s.Some? ==> s.value == f.m[userId]
  {
    if f.Entries? && userId in f.m then Some(f.m[userId]) else None
  }

  /** `get_last_session`: the user's row's non-empty `last_session_id`, and otherwise (no row,
      an empty value, or a failed read) the local file's entry. */
  function LastSession(users: seq<UserRow>, file: SessionFile, userId: string, fault: Fault): (s: Option<string>)
    ensures fault != Raises(0) && FindById(users, userId).Some?
            && Truthy(users[FindById(users, userId).value].lastSessionId) ==>
              s == users[FindById(users, userId).value].lastSessionId
    ensures fault != Raises(0) && FindById(users, userId).None? ==> s == LocalSession(file, userId)
    ensures fault != Raises(0) && FindById(users, userId).Some?
            && !Truthy(users[FindById(users, userId).value].lastSessionId) ==>
              s == LocalSession(file, userId)
    ensures fault == Raises(0) ==> s == LocalSession(file, userId)
  {
    if fault != Raises(0) && FindById(users, userId).Some? && Truthy(users[FindById(users, userId).value].lastSessionId)
    then users[FindById(users, userId).value].lastSessionId
    else LocalSession(file, userId)
  }

  const Resent := "Verification code resent. Please verify your email."
  const Registered := "User registered successfully. Please verify your email."

  /** The row `signup` inserts for a new address: inactive, unverified, with the code and
      its expiry. */
  function NewUserRow(deps: Deps, email: string, password: string, fullName: Option<string>, now: int,
                      draw: nat, newId: string): UserRow
  {
    UserRow(newId, email, deps.hashPassword(password), fullName, false, false,
            Some(GenerateOtp(draw)), Some(At(now + OtpLifetime(deps))), now, now, None)
  }

  /** The input checks of `signup`, in order: the refusal message, or none when the input
      passes. */
  function SignupRefusal(deps: Deps, email: string, password: string): (m: Option<string>)
    ensures m.None? <==> email != "" && password != "" && deps.emailFormatValid(email) && deps.validatePassword(password).0
  {
    if email == "" || password == "" then Some("Email and password are required")
    else if !deps.emailFormatValid(email) then Some("Invalid email format")
    else if !deps.validatePassword(password).0 then Some(deps.validatePassword(password).1)
    else None
  }

  /** What `signup` does once the input has passed and the lookup has worked: refuse a
      verified account, give an unverified one a fresh code, or insert a new row. */
  function SignupStore(users: seq<UserRow>, deps: Deps, email: string, password: string, fullName: Option<string>,
                       now: int, draw: nat, newId: string, fault: Fault): (out: (SignupResult, seq<UserRow>))
    ensures !out.0.success ==> out.1 == users && out.0.user.None? && out.0.otp.None?
    ensures out.0.success ==> out.0.otp == Some(GenerateOtp(draw))
  {
    match FindByEmail(users, email)
    case Some(i) =>
      if users[i].isVerified then (SignupResult(false, AlreadyExists, None, None), users)
      else if fault == Raises(1) then (SignupResult(false, "Internal server error", None, None), users)
      else (SignupResult(true, Resent, Some(Response(users[i])), Some(GenerateOtp(draw))),
            UpdateById(users, users[i].id, OtpPatch(GenerateOtp(draw), now + OtpLifetime(deps)), now))
    case None =>
      if fault == Raises(1) || fault == EmptyReply(1) then (SignupResult(false, "Failed to register user", None, None), users)
      else
        var row := NewUserRow(deps, email, password, fullName, now, draw, newId);
        (SignupResult(true, Registered, Some(Response(row)), Some(GenerateOtp(draw))), users + [row])
  }

  lemma StoreResendStep(users: seq<UserRow>, deps: Deps, email: string, password: string, fullName: Option<string>,
                        now: int, draw: nat, newId: string, fault: Fault, i: nat)
    requires FindByEmail(users, email) == Some(i) && !users[i].isVerified && fault != Raises(1)
    ensures SignupStore(users, deps, email, password, fullName, now, draw, newId, fault).0
            == SignupResult(true, Resent, Some(Response(users[i])), Some(GenerateOtp(draw)))
    ensures SignupStore(users, deps, email, password, fullName, now, draw, newId, fault).1
            == UpdateById(users, users[i].id, OtpPatch(GenerateOtp(draw), now + OtpLifetime(deps)), now)
  {
  }

  lemma StoreRegisterStep(users: seq<UserRow>, deps: Deps, email: string, password: string, fullName: Option<string>,
                          now: int, draw: nat, newId: string, fault: Fault)
    requires FindByEmail(users, email).None? && fault != Raises(1) && fault != EmptyReply(1)
    ensures SignupStore(users, deps, email, password, fullName, now, draw, newId, fault).0
            == SignupResult(true, Registered, Some(Response(NewUserRow(deps, email, password, fullName, now, draw, newId))),
                            Some(GenerateOtp(draw)))
    ensures SignupStore(users, deps, email, password, fullName, now, draw, newId, fault).1
            == users + [NewUserRow(deps, email, password, fullName, now, draw, newId)]
  {
  }

  /** What `signup` answers and what the users table becomes, as a function of the table
      before it. Failures leave the table alone. */
  function SignupOn(users: seq<UserRow>, deps: Deps, email: string, password: string, fullName: Option<string>,
                    now: int, draw: nat, newId: string, fault: Fault): (out: (SignupResult, seq<UserRow>))
    ensures !out.0.success ==> out.1 == users && out.0.user.None? && out.0.otp.None?
    ensures out.0.success ==> out.0.otp == Some(GenerateOtp(draw))
  {
    match SignupRefusal(deps, email, password)
    case Some(m) => (SignupResult(false, m, None, None), users)
    case None =>
      if fault == Raises(0) then (SignupResult(false, "Internal server error", None, None), users)
      else SignupStore(users, deps, email, password, fullName, now, draw, newId, fault)
  }

  /** Input checks come first, in order, and refuse with their own messages. */
  lemma SignupGuards(users: seq<UserRow>, deps: Deps, email: string, password: string, fullName: Option<string>,
                     now: int, draw: nat, newId: string, fault: Fault)
    ensures var r := SignupOn(users, deps, email, password, fullName, now, draw, newId, fault).0;
            && (email == "" || password == "" ==> r == SignupResult(false, "Email and password are required", None, None))
            && (email != "" && password != "" && !deps.emailFormatValid(email) ==>
                  r == SignupResult(false, "Invalid email format", None, None))
            && (email != "" && password != "" && deps.emailFormatValid(email) && !deps.validatePassword(password).0 ==>
                  r == SignupResult(false, deps.validatePassword(password).1, None, None))
  {
  }

  /** Sign-up succeeds exactly when the input passes the checks and the calls it needs
      work: an unverified existing account needs the lookup and the update, a new address
      the lookup and an insert that returns the row. */
  lemma SignupSucceedsIff(users: seq<UserRow>, deps: Deps, email: string, password: string, fullName: Option<string>,
                          now: int, draw: nat, newId: string, fault: Fault)
    ensures SignupOn(users, deps, email, password, fullName, now, draw, newId, fault).0.success <==>
              && email != "" && password != "" && deps.emailFormatValid(email) && deps.validatePassword(password).0
              && (FindByEmail(users, email).Some? ==>
                    !users[FindByEmail(users, email).value].isVerified && fault != Raises(0) && fault != Raises(1))
              && (FindByEmail(users, email).None? ==> fault != Raises(0) && fault != Raises(1) && fault != EmptyReply(1))
  {
  }

  /** "already exists" is answered exactly for an address with a verified account (or
      when the password validator itself says so). */
  lemma SignupAlreadyExists(users: seq<UserRow>, deps: Deps, email: string, password: string, fullName: Option<string>,
                            now: int, draw: nat, newId: string, fault: Fault)
    ensures SignupOn(users, deps, email, password, fullName, now, draw, newId, fault).0.message == AlreadyExists <==>
              || (&& email != "" && password != "" && deps.emailFormatValid(email) && deps.validatePassword(password).0
                  && fault != Raises(0) && FindByEmail(users, email).Some?
                  && users[FindByEmail(users, email).value].isVerified)
              || (&& email != "" && password != "" && deps.emailFormatValid(email)
                  && deps.validatePassword(password) == (false, AlreadyExists))
  {
  }

  /** A successful sign-up of an address with an account only gives that (unverified)
      account a fresh code and expiry. */
  lemma SignupResends(users: seq<UserRow>, deps: Deps, email: string, password: string, fullName: Option<string>,
                      now: int, draw: nat, newId: string, fault: Fault, i: nat)
    requires FindByEmail(users, email) == Some(i)
    requires SignupOn(users, deps, email, password, fullName, now, draw, newId, fault).0.success
    ensures !users[i].isVerified
    ensures SignupOn(users, deps, email, password, fullName, now, draw, newId, fault).0
            == SignupResult(true, Resent, Some(Response(users[i])), Some(GenerateOtp(draw)))
    ensures SignupOn(users, deps, email, password, fullName, now, draw, newId, fault).1
            == UpdateById(users, users[i].id, OtpPatch(GenerateOtp(draw), now + OtpLifetime(deps)), now)
  {
  }

  /** A successful sign-up of a new address appends its row. */
  lemma SignupRegisters(users: seq<UserRow>, deps: Deps, email: string, password: string, fullName: Option<string>,
                        now: int, draw: nat, newId: string, fault: Fault)
    requires FindByEmail(users, email).None?
    requires SignupOn(users, deps, email, password, fullName, now, draw, newId, fault).0.success
    ensures SignupOn(users, deps, email, password, fullName, now, draw, newId, fault).0
            == SignupResult(true, Registered, Some(Response(NewUserRow(deps, email, password, fullName, now, draw, newId))),
                            Some(GenerateOtp(draw)))
    ensures SignupOn(users, deps, email, password, fullName, now, draw, newId, fault).1
            == users + [NewUserRow(deps, email, password, fullName, now, draw, newId)]
  {
  }

  /** Sign-up keeps the addresses unique. */
  lemma SignupKeepsUnique(users: seq<UserRow>, deps: Deps, email: string, password: string, fullName: Option<string>,
                          now: int, draw: nat, newId: string, fault: Fault)
    requires UniqueEmails(users)
    ensures UniqueEmails(SignupOn(users, deps, email, password, fullName, now, draw, newId, fault).1)
  {
    if SignupOn(users, deps, email, password, fullName, now, draw, newId, fault).0.success {
      match FindByEmail(users, email)
      case Some(i) =>
        SignupResends(users, deps, email, password, fullName, now, draw, newId, fault, i);
        UpdateKeepsEmails(users, users[i].id, OtpPatch(GenerateOtp(draw), now + OtpLifetime(deps)), now);
      case None =>
        SignupRegisters(users, deps, email, password, fullName, now, draw, newId, fault);
        AppendUnique(users, NewUserRow(deps, email, password, fullName, now, draw, newId));
    }
  }

  /** The address's row holds the code, its expiry, and is not verified. */
  predicate HoldsCode(users: seq<UserRow>, email: string, otp: string, expiry: int)
  {
    && FindByEmail(users, email).Some?
    && var u := users[FindByEmail(users, email).value];
       u.otp == Some(otp) && u.otpExpiresAt == Some(At(expiry)) && !u.isVerified
  }

  lemma ResendHoldsCode(users: seq<UserRow>, i: nat, email: string, otp: string, expiry: int, now: int,
                        after: seq<UserRow>)
    requires UniqueEmails(users) && FindByEmail(users, email) == Some(i) && !users[i].isVerified
    requires after == UpdateById(users, users[i].id, OtpPatch(otp, expiry), now)
    ensures HoldsCode(after, email, otp, expiry)
  {
    ResendKeepsRow(users, i, email, otp, expiry, now);
  }

  lemma AppendHoldsCode(users: seq<UserRow>, row: UserRow, email: string, otp: string, expiry: int,
                        after: seq<UserRow>)
    requires UniqueEmails(users) && row.email == email && FindByEmail(users, email).None?
    requires row.otp == Some(otp) && row.otpExpiresAt == Some(At(expiry)) && !row.isVerified
    requires after == users + [row]
    ensures HoldsCode(after, email, otp, expiry)
  {
    AppendUnique(users, row);
    assert (users + [row])[|users|] == row;
  }

  /** After a successful sign-up the address's row holds the code that was issued, its
      expiry, and is not verified. */
  lemma SignupStoresCode(users: seq<UserRow>, deps: Deps, email: string, password: string, fullName: Option<string>,
                         now: int, draw: nat, newId: string, fault: Fault)
    requires UniqueEmails(users)
    requires SignupOn(users, deps, email, password, fullName, now, draw, newId, fault).0.success
    ensures HoldsCode(SignupOn(users, deps, email, password, fullName, now, draw, newId, fault).1,
                      email, GenerateOtp(draw), now + OtpLifetime(deps))
  {
    var after := SignupStore(users, deps, email, password, fullName, now, draw, newId, fault).1;
    assert SignupStore(users, deps, email, password, fullName, now, draw, newId, fault).0.success;
    match FindByEmail(users, email)
    case Some(i) =>
      assert !users[i].isVerified;
      StoreResendStep(users, deps, email, password, fullName, now, draw, newId, fault, i);
      ResendHoldsCode(users, i, email, GenerateOtp(draw), now + OtpLifetime(deps), now, after);
    case None =>
      StoreRegisterStep(users, deps, email, password, fullName, now, draw, newId, fault);
      AppendHoldsCode(users, NewUserRow(deps, email, password, fullName, now, draw, newId), email,
                      GenerateOtp(draw), now + OtpLifetime(deps), after);
  }

  class AuthService {
    var users: seq<UserRow>
    var resets: seq<ResetRow>
    var sessionFile: SessionFile
    const deps: Deps

    predicate Valid()
      reads this
    {
      UniqueEmails(users)
    }

    constructor (deps: Deps, users: seq<UserRow>, resets: seq<ResetRow>, sessionFile: SessionFile)
      requires UniqueEmails(users)
      ensures Valid() && this.deps == deps && this.users == users && this.resets == resets
      ensures this.sessionFile == sessionFile
    {
      this.deps, this.users, this.resets, this.sessionFile := deps, users, resets, sessionFile;
    }

    /** `signup`. Input checks come first and touch nothing. An address that already has a
        verified account is refused; one with an unverified account only gets a fresh code
        and expiry; a new address gets an inactive, unverified row with a six-digit code
        that expires `OTP_EXPIRE_MINUTES` later. */
    method Signup(email: string, password: string, fullName: Option<string>, now: int, draw: nat,
                  newId: string, fault: Fault) returns (r: SignupResult)
      requires Valid()
      modifies this
      ensures Valid() && resets == old(resets) && sessionFile == old(sessionFile)
      ensures r == SignupOn(old(users), deps, email, password, fullName, now, draw, newId, fault).0
      ensures users == SignupOn(old(users), deps, email, password, fullName, now, draw, newId, fault).1
    {
      if email == "" || password == "" {
        return SignupResult(false, "Email and password are required", None, None);
      }
      if !deps.emailFormatValid(email) {
        return SignupResult(false, "Invalid email format", None, None);
      }
      var (valid, validationMessage) := deps.validatePassword(password);
      if !valid {
        return SignupResult(false, validationMessage, None, None);
      }
      if fault == Raises(0) {
        return SignupResult(false, "Internal server error", None, None);
      }
      r := StoreSignup(email, password, fullName, now, draw, newId, fault);
    }

    /** The `try` blocks of `signup`, once the input checks have passed and the lookup has
        not raised: resend a code to an unverified account, or insert a new one. */
    method StoreSignup(email: string, password: string, fullName: Option<string>, now: int, draw: nat,
                       newId: string, fault: Fault) returns (r: SignupResult)
      requires Valid()
      modifies this
      ensures Valid() && resets == old(resets) && sessionFile == old(sessionFile)
      ensures r == SignupStore(old(users), deps, email, password, fullName, now, draw, newId, fault).0
      ensures users == SignupStore(old(users), deps, email, password, fullName, now, draw, newId, fault).1
    {
      var found := FindByEmail(users, email);
      if found.Some? {
        var existing := users[found.value];
        if existing.isVerified {
          return SignupResult(false, AlreadyExists, None, None);
        }
        var otp := GenerateOtp(draw);
        if fault == Raises(1) {
          return SignupResult(false, "Internal server error", None, None);
        }
        ResendKeepsRow(users, found.value, email, otp, now + OtpLifetime(deps), now);
        StoreResendStep(users, deps, email, password, fullName, now, draw, newId, fault, found.value);
        users := UpdateById(users, existing.id, OtpPatch(otp, now + OtpLifetime(deps)), now);
        return SignupResult(true, Resent, Some(Response(existing)), Some(otp));
      }
      var otp := GenerateOtp(draw);
      var row := NewUserRow(deps, email, password, fullName, now, draw, newId);
      if fault == Raises(1) || fault == EmptyReply(1) {
        return SignupResult(false, "Failed to register user", None, None);
      }
      AppendUnique(users, row);
      StoreRegisterStep(users, deps, email, password, fullName, now, draw, newId, fault);
      users := users + [row];
      r := SignupResult(true, Registered, Some(Response(row)), Some(otp));
    }

    /** `verify_email`: applies VerifyDecision to the row found for the address, and on
        Accept marks the account verified and active and clears its code. */
    method VerifyEmail(email: string, otp: string, now: int, fault: Fault) returns (r: Status)
      requires Valid()
      modifies this
      ensures Valid() && resets == old(resets) && sessionFile == old(sessionFile)
      ensures email == "" || otp == "" ==> r == Status(false, "Email and OTP are required") && users == old(users)
      ensures email != "" && otp != "" && fault == Raises(0) ==> r == Status(false, "Failed to verify email") && users == old(users)
      ensures email != "" && otp != "" && fault != Raises(0) && FindByEmail(old(users), email).None? ==>
                r == Status(false, "User not found") && users == old(users)
      ensures email != "" && otp != "" && fault != Raises(0) && FindByEmail(old(users), email).Some? ==>
                var u := old(users)[FindByEmail(old(users), email).value];
                match VerifyDecision(u, otp, now)
                case AlreadyVerified => r == Status(true, "Email already verified") && users == old(users)
                case Refuse(m) => r == Status(false, m) && users == old(users)
                case ParseFailure => r == Status(false, "Failed to verify email") && users == old(users)
                case Accept =>
                  if fault == Raises(1) then r == Status(false, "Failed to verify email") && users == old(users)
                  else r == Status(true, "Email verified successfully") && users == UpdateById(old(users), u.id, VerifyPatch, now)
    {
      if email == "" || otp == "" {
        return Status(false, "Email and OTP are required");
      }
      if fault == Raises(0) {
        return Status(false, "Failed to verify email");
      }
      var found := FindByEmail(users, email);
      if found.None? {
        return Status(false, "User not found");
      }
      var u := users[found.value];
      var decision := VerifyDecision(u, otp, now);
      match decision {
        case AlreadyVerified => r := Status(true, "Email already verified");
        case Refuse(m) => r := Status(false, m);
        case ParseFailure => r := Status(false, "Failed to verify email");
        case Accept =>
          if fault == Raises(1) {
            r := Status(false, "Failed to verify email");
          } else {
            UpdateKeepsEmails(users, u.id, VerifyPatch, now);
            users := UpdateById(users, u.id, VerifyPatch, now);
            r := Status(true, "Email verified successfully");
          }
      }
    }

    /** `request_password_reset`. Only an empty address is reported as an error; a malformed
        or unknown one gets the same acknowledgement as a known one, without a code. For a
        known address an unused row with a fresh code and its expiry is added. */
    method RequestPasswordReset(email: string, now: int, draw: nat, newId: string, fault: Fault)
      returns (r: ResetRequestResult)
      requires Valid()
      modifies this
      ensures Valid() && users == old(users) && sessionFile == old(sessionFile)
      ensures email == "" ==> r == ResetRequestResult(false, "Invalid email format", None) && resets == old(resets)
      ensures email != "" && (!deps.emailFormatValid(email) || (fault != Raises(0) && FindByEmail(users, email).None?)) ==>
                r == ResetRequestResult(true, ResetAcknowledged, None) && resets == old(resets)
      ensures r.otp.Some? <==>
                email != "" && deps.emailFormatValid(email) && fault !in {Raises(0), Raises(1)} && FindByEmail(users, email).Some?
      ensures r.otp.Some? ==>
                && r == ResetRequestResult(true, "Password reset OTP sent to email", Some(GenerateOtp(draw)))
                && resets == old(resets) + [ResetRow(newId, users[FindByEmail(users, email).value].id, GenerateOtp(draw),
                                                     At(now + OtpLifetime(deps)), now, false)]
      ensures r.otp.None? ==> resets == old(resets)
    {
      if email == "" {
        return ResetRequestResult(false, "Invalid email format", None);
      }
      if !deps.emailFormatValid(email) {
        return ResetRequestResult(true, ResetAcknowledged, None);
      }
      if fault == Raises(0) {
        return ResetRequestResult(false, "Internal server error", None);
      }
      var found := FindByEmail(users, email);
      if found.None? {
        return ResetRequestResult(true, ResetAcknowledged, None);
      }
      var userId := users[found.value].id;
      var otp := GenerateOtp(draw);
      if fault == Raises(1) {
        return ResetRequestResult(false, "Failed to generate reset token", None);
      }
      resets := resets + [ResetRow(newId, userId, otp, At(now + OtpLifetime(deps)), now, false)];
      r := ResetRequestResult(true, "Password reset OTP sent to email", Some(otp));
    }

    /** `reset_password`. The request checks come before any database access. The newest
        unused row for the user and the code must exist and not be expired. On success the
        password hash is replaced and that row is marked used. The two writes are separate
        calls: when the second one fails, the password has changed but the code stays
        usable, and the caller is told the reset failed. */
    method ResetPassword(email: string, otp: string, newPassword: string, confirmPassword: string,
                         now: int, fault: Fault) returns (r: Status)
      requires Valid()
      modifies this
      ensures Valid() && sessionFile == old(sessionFile)
      ensures email == "" || otp == "" || newPassword == "" || confirmPassword == "" ==>
                r == Status(false, "Invalid request") && users == old(users) && resets == old(resets)
      ensures email != "" && otp != "" && newPassword != "" && confirmPassword != "" && newPassword != confirmPassword ==>
                r == Status(false, "Passwords do not match") && users == old(users) && resets == old(resets)
      ensures r.success <==>
                && email != "" && otp != "" && newPassword != "" && newPassword == confirmPassword
                && deps.validatePassword(newPassword).0 && fault !in {Raises(0), Raises(1), Raises(2), Raises(3)}
                && FindByEmail(old(users), email).Some?
                && NewestUnused(old(resets), old(users)[FindByEmail(old(users), email).value].id, otp).Some?
                && ResetExpiry(old(resets)[NewestUnused(old(resets), old(users)[FindByEmail(old(users), email).value].id, otp).value].expiresAt, now).None?
      ensures r.success ==>
                var uid := old(users)[FindByEmail(old(users), email).value].id;
                var i := NewestUnused(old(resets), uid, otp).value;
                && r == Status(true, "Password reset successfully")
                && users == UpdateById(old(users), uid, PasswordPatch(deps.hashPassword(newPassword)), now)
                && resets == MarkUsed(old(resets), i)
                && NewestUnused(resets, uid, otp) != Some(i)
      ensures !r.success && fault == Raises(3) && users != old(users) ==>
                r == Status(false, "Failed to reset password") && resets == old(resets)
      ensures !r.success && fault != Raises(3) ==> users == old(users) && resets == old(resets)
      ensures !r.success ==> resets == old(resets)
    {
      if email == "" || otp == "" || newPassword == "" || confirmPassword == "" {
        return Status(false, "Invalid request");
      }
      if newPassword != confirmPassword {
        return Status(false, "Passwords do not match");
      }
      var (valid, validationMessage) := deps.validatePassword(newPassword);
      if !valid {
        return Status(false, validationMessage);
      }
      if fault == Raises(0) {
        return Status(false, "Internal server error");
      }
      var found := FindByEmail(users, email);
      if found.None? {
        return Status(false, "Invalid request");
      }
      var userId := users[found.value].id;
      if fault == Raises(1) {
        return Status(false, "Internal server error");
      }
      var row := NewestUnused(resets, userId, otp);
      if row.None? {
        return Status(false, "Invalid or expired OTP");
      }
      var expired := ResetExpiry(resets[row.value].expiresAt, now);
      if expired.Some? {
        return Status(false, expired.value);
      }
      var hashed := deps.hashPassword(newPassword);
      if fault == Raises(2) {
        return Status(false, "Failed to reset password");
      }
      UpdateKeepsEmails(users, userId, PasswordPatch(hashed), now);
      users := UpdateById(users, userId, PasswordPatch(hashed), now);
      if fault == Raises(3) {
        return Status(false, "Failed to reset password");
      }
      ResetCodeSingleUse(resets, userId, otp);
      resets := MarkUsed(resets, row.value);
      r := Status(true, "Password reset successfully");
    }

    /** `get_or_create_google_user`. Without an address there is no user. A known address
        is returned, verified and activated first if it was not (the returned record keeps
        its old `updated_at`); an unknown one gets a new verified, active row named after
        the display name or else the first name, with a random password. Any database
        failure gives no user. */
    method GetOrCreateGoogleUser(info: GoogleInfo, now: int, newId: string, randomPassword: string, fault: Fault)
      returns (user: Option<UserRow>)
      requires Valid()
      modifies this
      ensures Valid() && resets == old(resets) && sessionFile == old(sessionFile)
      ensures !Truthy(info.email) ==> user.None? && users == old(users)
      ensures user.None? ==> users == old(users)
      ensures user.Some? ==> user.value.isVerified && Truthy(info.email)
                             && user.value.email == info.email.value
      ensures Truthy(info.email) && fault != Raises(0) && FindByEmail(old(users), info.email.value).Some? ==>
                var u := old(users)[FindByEmail(old(users), info.email.value).value];
                if u.isVerified then user == Some(u) && users == old(users)
                else if fault == Raises(1) then user.None?
                else user == Some(u.(isVerified := true, isActive := true))
                     && users == UpdateById(old(users), u.id, GoogleVerifyPatch, now)
      ensures Truthy(info.email) && fault != Raises(0) && FindByEmail(old(users), info.email.value).None? ==>
                var row := UserRow(newId, info.email.value, deps.hashPassword(randomPassword),
                                   if Truthy(info.displayName) then info.displayName else info.firstName,
                                   true, true, None, None, now, now, None);
                if fault == Raises(1) || fault == EmptyReply(1) then user.None?
                else user == Some(row) && users == old(users) + [row]
    {
      if !Truthy(info.email) {
        return None;
      }
      var email := info.email.value;
      if fault == Raises(0) {
        return None;
      }
      var found := FindByEmail(users, email);
      if found.Some? {
        var u := users[found.value];
        if !u.isVerified {
          if fault == Raises(1) {
            return None;
          }
          UpdateKeepsEmails(users, u.id, GoogleVerifyPatch, now);
          users := UpdateById(users, u.id, GoogleVerifyPatch, now);
          u := u.(isVerified := true, isActive := true);
        }
        return Some(u);
      }
      var row := UserRow(newId, email, deps.hashPassword(randomPassword),
                         if Truthy(info.displayName) then info.displayName else info.firstName,
                         true, true, None, None, now, now, None);
      if fault == Raises(1) || fault == EmptyReply(1) {
        return None;
      }
      users := users + [row];
      user := Some(row);
    }

    /** `get_last_session`. */
    function GetLastSession(userId: string, fault: Fault): (s: Option<string>)
      reads this
      ensures s.Some? ==> s == LocalSession(sessionFile, userId)
                          || (FindById(users, userId).Some? && s == users[FindById(users, userId).value].lastSessionId)
    {
      LastSession(users, sessionFile, userId, fault)
    }

    /** `update_last_session`. The database write succeeds even when no row has the id, in
        which case nothing is recorded. When the write raises, the session goes to the local
        file instead, merged into its entries (all of them lost if the file was unreadable),
        and a later read that reaches the database still sees the row's old value. */
    method UpdateLastSession(userId: string, sessionId: string, now: int, fault: Fault, fileWritable: bool)
      returns (ok: bool)
      requires Valid()
      modifies this
      ensures Valid() && resets == old(resets)
      ensures fault != Raises(0) ==>
                && ok && sessionFile == old(sessionFile)
                && users == UpdateById(old(users), userId, SessionPatch(sessionId), now)
                && (FindById(old(users), userId).Some? && sessionId != "" ==> GetLastSession(userId, NoFault) == Some(sessionId))
                && (FindById(old(users), userId).None? ==> users == old(users))
      ensures fault == Raises(0) ==>
                && users == old(users) && ok == fileWritable
                && sessionFile == (if fileWritable then Entries(FileEntries(old(sessionFile))[userId := sessionId])
                                   else old(sessionFile))
                && (fileWritable ==> GetLastSession(userId, Raises(0)) == Some(sessionId))
                && GetLastSession(userId, NoFault) == (if FindById(users, userId).Some?
                                                          && Truthy(users[FindById(users, userId).value].lastSessionId)
                                                       then users[FindById(users, userId).value].lastSessionId
                                                       else LocalSession(sessionFile, userId))
    {
      if fault != Raises(0) {
        var before := users;
        UpdateKeepsEmails(users, userId, SessionPatch(sessionId), now);
        users := UpdateById(users, userId, SessionPatch(sessionId), now);
        if FindById(before, userId).None? {
          assert users == before;
        } else {
          UpdateFindsSameRow(before, userId, SessionPatch(sessionId), now);
        }
        ok := true;
      } else {
        var data := FileEntries(sessionFile)[userId := sessionId];
        if fileWritable {
          sessionFile := Entries(data);
          ok := true;
        } else {
          ok := false;
        }
      }
    }
  }

  /** Updating by id keeps the first row with that id first. */
  lemma {:induction false} UpdateFindsSameRow(users: seq<UserRow>, id: string, p: Patch, now: int)
    requires FindById(users, id).Some?
    ensures FindById(UpdateById(users, id, p, now), id) == FindById(users, id)
  {
    var i := FindById(users, id).value;
    var r := UpdateById(users, id, p, now);
    assert forall k :: 0 <= k < |r| ==> r[k].id == users[k].id;
    assert r[i].id == id;
    var j := FindById(r, id);
    assert j.Some? && r[j.value].id == id;
    assert users[j.value].id == id;
  }
}
