/** `POST /agents` (registration) and `POST /agents/login`. */
module AgentRoute {
  import opened Wrappers
  import opened Text
  import opened Records
  import opened Db

  /** The registration form; a field left out of the body is the empty
      string, which JavaScript treats as false. */
  datatype Registration = Registration(
    firstName: string,
    lastName: string,
    email: string,
    phone: string,
    location: string,
    region: string,
    hearAboutUs: string,
    password: string,
    confirmPassword: string,
    agree: bool)

  const RegistrationFields: set<Key> :=
    {FirstName, LastName, Email, Phone, Location, Region, HearAboutUs, Password, ConfirmPassword, Agree}

  const DuplicateAgentMessage := "Agent with this email already exists"
  const RegisteredMessage := "Agent successfully registered!"
  const LoginMissingMessage := "Please provide an email and password"
  const LoginSuccessMessage := "Agent login successfully"
  const Dashboard := "/dashboard"

  /** The message one field of the form earns, if any; each field is judged
      on its own, except that the confirmation is compared with the password. */
  function RegistrationFieldError(r: Registration, field: Key): Option<string> {
    match field
    case FirstName => if r.firstName == "" then Some("First name is required") else None
    case LastName => if r.lastName == "" then Some("Last name is required") else None
    case Email =>
      if r.email == "" then Some("Email is required")
      else if !IsEmailShape(r.email) then Some("Invalid email format")
      else None
    case Phone =>
      if r.phone == "" then Some("Phone number is required")
      else if !IsGhanaPhone(r.phone) then Some("Phone number must start with +233 and have 9 digits")
      else None
    case Location => if r.location == "" then Some("Location is required") else None
    case Region => if r.region == "" then Some("Region is required") else None
    case HearAboutUs => if r.hearAboutUs == "" then Some("How did you hear about us is required") else None
    case Password =>
      if r.password == "" then Some("Password is required")
      else if |r.password| < 6 then Some("Password must be at least 6 characters long")
      else None
    case ConfirmPassword =>
      if r.password != "" && r.password != r.confirmPassword then Some("Passwords do not match") else None
    case Agree => if !r.agree then Some("You must agree to the terms and conditions") else None
    case _ => None
  }

  /** The error map of a registration: every field of the form is checked and
      each failure is recorded under its own key. */
  function RegistrationErrors(r: Registration): map<Key, string> {
    RegistrationErrorsOn(r, RegistrationFields)
  }

  /** The errors the fields in `fields` contribute. */
  function RegistrationErrorsOn(r: Registration, fields: set<Key>): map<Key, string> {
    map f | f in fields && RegistrationFieldError(r, f).Some? :: RegistrationFieldError(r, f).value
  }

  /** Checking one more field adds its message, if any, and leaves the other
      entries alone. */
  lemma RegistrationErrorsStep(r: Registration, fields: set<Key>, k: Key)
    ensures RegistrationErrorsOn(r, fields + {k}) ==
      AddError(RegistrationErrorsOn(r, fields), k, RegistrationFieldError(r, k))
  {
    var after := RegistrationErrorsOn(r, fields + {k});
    var updated := AddError(RegistrationErrorsOn(r, fields), k, RegistrationFieldError(r, k));
    forall f
      ensures f in after <==> f in updated
      ensures f in after ==> after[f] == updated[f]
    {
    }
  }

  /** One `if (...) errors.k = "..."` of the handler: the entry for `k` is
      set when the field fails. */
  method CheckRegistrationField(r: Registration, k: Key, errors: map<Key, string>, ghost done: set<Key>)
    returns (updated: map<Key, string>)
    requires errors == RegistrationErrorsOn(r, done)
    ensures updated == RegistrationErrorsOn(r, done + {k})
  {
    RegistrationErrorsStep(r, done, k);
    var msg := RegistrationFieldError(r, k);
    if msg.Some? {
      updated := errors[k := msg.value];
    } else {
      updated := errors;
    }
  }

  /** The handler's validation: `errors` starts empty and is filled in place,
      one field at a time, in the order of the form. */
  method ValidateRegistration(r: Registration) returns (errors: map<Key, string>)
    ensures errors == RegistrationErrors(r)
  {
    errors := map[];
    ghost var done: set<Key> := {};
    errors := CheckRegistrationField(r, FirstName, errors, done);
    done := done + {FirstName};
    errors := CheckRegistrationField(r, LastName, errors, done);
    done := done + {LastName};
    errors := CheckRegistrationField(r, Email, errors, done);
    done := done + {Email};
    errors := CheckRegistrationField(r, Phone, errors, done);
    done := done + {Phone};
    errors := CheckRegistrationField(r, Location, errors, done);
    done := done + {Location};
    errors := CheckRegistrationField(r, Region, errors, done);
    done := done + {Region};
    errors := CheckRegistrationField(r, HearAboutUs, errors, done);
    done := done + {HearAboutUs};
    errors := CheckRegistrationField(r, Password, errors, done);
    done := done + {Password};
    errors := CheckRegistrationField(r, ConfirmPassword, errors, done);
    done := done + {ConfirmPassword};
    errors := CheckRegistrationField(r, Agree, errors, done);
    done := done + {Agree};
    assert done == RegistrationFields;
  }

  /** A registration passes validation exactly when every required field is
      present, both patterns match, the password is long enough and repeated,
      and the terms are accepted. */
  lemma RegistrationAccepted(r: Registration)
    ensures RegistrationErrors(r) == map[] <==>
      && r.firstName != "" && r.lastName != "" && r.location != ""
      && r.region != "" && r.hearAboutUs != ""
      && IsEmailShape(r.email) && IsGhanaPhone(r.phone)
      && |r.password| >= 6 && r.password == r.confirmPassword && r.agree
  {
    RequiredFieldErrors(r);
    FormatErrors(r);
    PasswordAndTermsErrors(r);
    if RegistrationErrors(r) != map[] {
      var k :| k in RegistrationErrors(r);
      assert k in RegistrationFields;
    }
  }

  /** Validation does not stop at the first failure: each required field
      that is missing has its own entry. */
  lemma RequiredFieldErrors(r: Registration)
    ensures var errors := RegistrationErrors(r);
      && (FirstName in errors <==> r.firstName == "")
      && (LastName in errors <==> r.lastName == "")
      && (Location in errors <==> r.location == "")
      && (Region in errors <==> r.region == "")
      && (HearAboutUs in errors <==> r.hearAboutUs == "")
  {
  }

  /** The e-mail and the phone fail exactly when their pattern does not
      match; a missing value never matches. */
  lemma FormatErrors(r: Registration)
    ensures var errors := RegistrationErrors(r);
      && (Email in errors <==> !IsEmailShape(r.email))
      && (Phone in errors <==> !IsGhanaPhone(r.phone))
  {
    EmptyFailsPatterns();
  }

  /** The password checks and the terms: the length and the confirmation are
      judged independently, and the confirmation only once a password is given. */
  lemma PasswordAndTermsErrors(r: Registration)
    ensures var errors := RegistrationErrors(r);
      && (Password in errors <==> |r.password| < 6)
      && (ConfirmPassword in errors <==> r.password != "" && r.password != r.confirmPassword)
      && (Agree in errors <==> !r.agree)
  {
  }

  /** The messages distinguish a missing value from a malformed one. */
  lemma RegistrationMessages(r: Registration)
    ensures var errors := RegistrationErrors(r);
      && (r.email == "" ==> errors[Email] == "Email is required")
      && (r.email != "" && !IsEmailShape(r.email) ==> errors[Email] == "Invalid email format")
      && (r.phone == "" ==> errors[Phone] == "Phone number is required")
      && (r.phone != "" && !IsGhanaPhone(r.phone) ==>
            errors[Phone] == "Phone number must start with +233 and have 9 digits")
      && (r.password == "" ==> errors[Password] == "Password is required")
      && (r.password != "" && |r.password| < 6 ==>
            errors[Password] == "Password must be at least 6 characters long")
  {
  }

  /** A short password that is not repeated earns both password errors at once. */
  lemma PasswordErrorsCombine()
    ensures var errors := RegistrationErrors(Registration("", "", "", "", "", "", "", "abc", "abd", false));
      && errors[Password] == "Password must be at least 6 characters long"
      && errors[ConfirmPassword] == "Passwords do not match"
  {
  }

  /** The row `Agent.create` stores: the form as submitted, with the e-mail
      lower-cased and the next id. */
  function NewAgent(id: int, r: Registration): (a: Agent)
    ensures a.id == id && a.email == ToLower(r.email) && IsLower(a.email)
    ensures a.firstName == r.firstName && a.lastName == r.lastName && a.phone == r.phone
    ensures a.location == r.location && a.region == r.region && a.hearAboutUs == r.hearAboutUs
    ensures a.password == r.password && a.agree == r.agree
  {
    ToLowerIsLower(r.email);
    Agent(id, r.firstName, r.lastName, ToLower(r.email), r.phone, r.location,
          r.region, r.hearAboutUs, r.password, r.agree)
  }

  /** Registration: validate every field, then look for the lower-cased
      e-mail, then store the agent and issue a token for `{id, email}`. */
  method Register(db: Store, r: Registration) returns (resp: Response)
    requires db.Valid()
    modifies db
    ensures db.Valid()
    ensures db.leads == old(db.leads) && db.nextLeadId == old(db.nextLeadId)
    ensures RegistrationErrors(r) != map[] ==>
      && resp == Response(400, FieldErrors(RegistrationErrors(r)))
      && db.agents == old(db.agents) && db.nextAgentId == old(db.nextAgentId)
    ensures RegistrationErrors(r) == map[] && FindAgentByEmail(old(db.agents), ToLower(r.email)).Some? ==>
      && resp == Response(400, FieldErrors(map[Email := DuplicateAgentMessage]))
      && db.agents == old(db.agents) && db.nextAgentId == old(db.nextAgentId)
    ensures RegistrationErrors(r) == map[] && FindAgentByEmail(old(db.agents), ToLower(r.email)).None? ==>
      var a := NewAgent(old(db.nextAgentId), r);
      && db.agents == old(db.agents) + [a]
      && db.nextAgentId == old(db.nextAgentId) + 1
      && resp == Response(201, Registered(RegisteredMessage, a, TokenPayload(a.id, a.email), Dashboard))
  {
    var errors := ValidateRegistration(r);
    if errors != map[] {
      return Response(400, FieldErrors(errors));
    }
    var normalizedEmail := ToLower(r.email);
    if FindAgentByEmail(db.agents, normalizedEmail).Some? {
      return Response(400, FieldErrors(map[Email := DuplicateAgentMessage]));
    }
    var a := NewAgent(db.nextAgentId, r);
    AddAgentKeepsValid(db.agents, db.leads, db.nextAgentId, db.nextLeadId, a);
    db.agents := db.agents + [a];
    db.nextAgentId := db.nextAgentId + 1;
    assert TablesValid(db.agents, db.leads, db.nextAgentId, db.nextLeadId);
    var payload := TokenPayload(a.id, a.email);
    resp := Response(201, Registered(RegisteredMessage, a, payload, Dashboard));
  }

  /** Once an agent is stored, a second registration whose e-mail differs
      only in letter case finds it and is refused. */
  lemma {:induction false} CaseVariantIsDuplicate(agents: seq<Agent>, id: int, first: Registration, second: Registration)
    requires ToLower(first.email) == ToLower(second.email)
    ensures FindAgentByEmail(agents + [NewAgent(id, first)], ToLower(second.email)).Some?
  {
    var e := ToLower(second.email);
    var a := NewAgent(id, first);
    FirstAppend(agents, [a], (x: Agent) => x.email == e);
    assert [a][0].email == e;
  }

  /** Login: both fields present, then an exact-match lookup of the e-mail as
      given, then the password check; a token is issued only at the end. The
      store is only read. */
  method Login(db: Store, email: string, password: string, env: Collaborators) returns (resp: Response)
    ensures email == "" || password == "" ==> resp == Response(400, Message(LoginMissingMessage))
    ensures email != "" && password != "" && FindAgentByEmail(db.agents, email).None? ==>
      resp == Response(404, Message("Email not Found"))
    ensures email != "" && password != "" && FindAgentByEmail(db.agents, email).Some? ==>
      var a := FindAgentByEmail(db.agents, email).value;
      if env.comparePassword(a, password) then
        resp == Response(201, LoggedIn(true, LoginSuccessMessage, a, TokenPayload(a.id, a.email), Dashboard))
      else
        resp == Response(401, Message("Invalid password"))
    ensures resp.status == 201 ==> exists i :: 0 <= i < |db.agents| && db.agents[i].email == email
  {
    if email == "" || password == "" {
      return Response(400, Message(LoginMissingMessage));
    }
    var found := FindAgentByEmail(db.agents, email);
    if found.None? {
      return Response(404, Message("Email not Found"));
    }
    var a := found.value;
    if !env.comparePassword(a, password) {
      return Response(401, Message("Invalid password"));
    }
    var payload := TokenPayload(a.id, a.email);
    resp := Response(201, LoggedIn(true, LoginSuccessMessage, a, payload, Dashboard));
  }

  /** Login does not lower-case: against tables whose e-mails are all stored
      lower-case, an address with an upper-case letter is never found. */
  lemma LoginIsCaseSensitive(agents: seq<Agent>, email: string)
    requires forall i :: 0 <= i < |agents| ==> IsLower(agents[i].email)
    requires !IsLower(email)
    ensures FindAgentByEmail(agents, email).None?
  {
  }

  /** Registration stores the e-mail lower-cased but login looks it up as
      typed: an agent who registered with an upper-case letter in the address
      is told "Email not Found" when typing the very same address. */
  lemma {:induction false} MixedCaseRegistrationCannotLogIn(agents: seq<Agent>, nextAgentId: int, r: Registration)
    requires AgentsValid(agents, nextAgentId)
    requires !IsLower(r.email)
    ensures FindAgentByEmail(agents + [NewAgent(nextAgentId, r)], r.email).None?
  {
    var after := agents + [NewAgent(nextAgentId, r)];
    forall i | 0 <= i < |after|
      ensures IsLower(after[i].email)
    {
      if i < |agents| {
        assert after[i] == agents[i];
      }
    }
    LoginIsCaseSensitive(after, r.email);
  }

  /** Login that lower-cases the address first, as registration does. */
  method LoginNormalized(db: Store, email: string, password: string, env: Collaborators) returns (resp: Response)
    ensures email == "" || password == "" ==> resp == Response(400, Message(LoginMissingMessage))
    ensures email != "" && password != "" && FindAgentByEmail(db.agents, ToLower(email)).None? ==>
      resp == Response(404, Message("Email not Found"))
    ensures email != "" && password != "" && FindAgentByEmail(db.agents, ToLower(email)).Some? ==>
      var a := FindAgentByEmail(db.agents, ToLower(email)).value;
      if env.comparePassword(a, password) then
        resp == Response(201, LoggedIn(true, LoginSuccessMessage, a, TokenPayload(a.id, a.email), Dashboard))
      else
        resp == Response(401, Message("Invalid password"))
  {
    resp := Login(db, ToLower(email), password, env);
  }

  /** With the lower-casing, the agent just registered is found under the
      address typed at registration and under any case variant of it. */
  lemma {:induction false} RegisteredAgentIsFound(agents: seq<Agent>, id: int, r: Registration, typed: string)
    requires FindAgentByEmail(agents, ToLower(r.email)).None?
    requires ToLower(typed) == ToLower(r.email)
    ensures FindAgentByEmail(agents + [NewAgent(id, r)], ToLower(typed)) == Some(NewAgent(id, r))
  {
    var a := NewAgent(id, r);
    FirstAppend(agents, [a], (x: Agent) => x.email == ToLower(typed));
  }
}
