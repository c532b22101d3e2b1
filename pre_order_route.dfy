/** `POST /pre-order` (a customer's pre-order, credited to an agent named in
    the form) and `GET /preorders` (the authenticated agent's pre-orders). */
module PreOrderRoute {
  import opened Wrappers
  import opened Text
  import opened Records
  import opened PreOrderModel
  import opened Db
  import opened Auth

  /** The pre-order form; a missing string field is the empty string, and a
      missing package is `None`. */
  datatype Submission = Submission(
    fullName: string,
    email: string,
    phoneNumber: string,
    location: string,
    homeType: string,
    gpsAddress: string,
    installationDate: string,
    agentName: string,
    pkg: Option<Package>)

  const SubmissionFields: set<Key> :=
    {FullName, Email, PhoneNumber, Location, HomeType, GpsAddress, InstallationDate, AgentName, PackageKey}

  const PackageRuleMessage := "Either monthlyPrice or yearlyPrice must be provided, but not both."
  const AgentNotFoundMessage := "Agent not found"
  const SubmittedMessage := "Pre-order submitted successfully"
  const SubmitFailedMessage := "There was an error submitting the pre-order. Please try again."

  function DuplicateOrderMessage(email: string): string {
    "Order with " + email + " already exists"
  }

  // ---------------------------------------------------------------------
  // Submission: the route's own checks
  // ---------------------------------------------------------------------

  /** The message one field of the form earns, if any. Only the phone number
      has a format check; the e-mail is only required to be present. */
  function SubmissionFieldError(s: Submission, field: Key): Option<string> {
    match field
    case FullName => if s.fullName == "" then Some("Full name is required") else None
    case Email => if s.email == "" then Some("Email is required") else None
    case PhoneNumber =>
      if s.phoneNumber == "" then Some("Phone number is required")
      else if !IsGhanaPhone(s.phoneNumber) then Some("Phone number must start with +233 and have 9 digits")
      else None
    case Location => if s.location == "" then Some("Location is required") else None
    case HomeType => if s.homeType == "" then Some("Home type is required") else None
    case GpsAddress => if s.gpsAddress == "" then Some("GPS address is required") else None
    case InstallationDate => if s.installationDate == "" then Some("Installation date is required") else None
    case AgentName => if s.agentName == "" then Some("Agent name is required") else None
    case PackageKey => if s.pkg.None? then Some("Package is required") else None
    case _ => None
  }

  /** The error map of a submission: every field is checked and each
      failure is recorded under its own key. */
  function SubmissionErrors(s: Submission): map<Key, string> {
    SubmissionErrorsOn(s, SubmissionFields)
  }

  /** The errors the fields in `fields` contribute. */
  function SubmissionErrorsOn(s: Submission, fields: set<Key>): map<Key, string> {
    map f | f in fields && SubmissionFieldError(s, f).Some? :: SubmissionFieldError(s, f).value
  }

  /** Checking one more field adds its message, if any, and leaves the other
      entries alone. */
  lemma SubmissionErrorsStep(s: Submission, fields: set<Key>, k: Key)
    ensures SubmissionErrorsOn(s, fields + {k}) ==
      AddError(SubmissionErrorsOn(s, fields), k, SubmissionFieldError(s, k))
  {
    var after := SubmissionErrorsOn(s, fields + {k});
    var updated := AddError(SubmissionErrorsOn(s, fields), k, SubmissionFieldError(s, k));
    forall f
      ensures f in after <==> f in updated
      ensures f in after ==> after[f] == updated[f]
    {
    }
  }

  /** One `if (...) errors.k = "..."` of the handler. */
  method CheckSubmissionField(s: Submission, k: Key, errors: map<Key, string>, ghost done: set<Key>)
    returns (updated: map<Key, string>)
    requires errors == SubmissionErrorsOn(s, done)
    ensures updated == SubmissionErrorsOn(s, done + {k})
  {
    SubmissionErrorsStep(s, done, k);
    var msg := SubmissionFieldError(s, k);
    if msg.Some? {
      updated := errors[k := msg.value];
    } else {
      updated := errors;
    }
  }

  /** The handler's validation: `errors` is filled in place, one field at a
      time, in the order of the form. */
  method ValidateSubmission(s: Submission) returns (errors: map<Key, string>)
    ensures errors == SubmissionErrors(s)
  {
    errors := map[];
    ghost var done: set<Key> := {};
    errors := CheckSubmissionField(s, FullName, errors, done);
    done := done + {FullName};
    errors := CheckSubmissionField(s, Email, errors, done);
    done := done + {Email};
    errors := CheckSubmissionField(s, PhoneNumber, errors, done);
    done := done + {PhoneNumber};
    errors := CheckSubmissionField(s, Location, errors, done);
    done := done + {Location};
    errors := CheckSubmissionField(s, HomeType, errors, done);
    done := done + {HomeType};
    errors := CheckSubmissionField(s, GpsAddress, errors, done);
    done := done + {GpsAddress};
    errors := CheckSubmissionField(s, InstallationDate, errors, done);
    done := done + {InstallationDate};
    errors := CheckSubmissionField(s, AgentName, errors, done);
    done := done + {AgentName};
    errors := CheckSubmissionField(s, PackageKey, errors, done);
    done := done + {PackageKey};
    assert done == SubmissionFields;
  }

  /** Each missing field has its own entry, whatever the others hold: the
      customer's details. */
  lemma SubmissionCustomerErrors(s: Submission)
    ensures var errors := SubmissionErrors(s);
      && (FullName in errors <==> s.fullName == "")
      && (Email in errors <==> s.email == "")
      && (Location in errors <==> s.location == "")
      && (HomeType in errors <==> s.homeType == "")
  {
  }

  /** The same for the order's details. */
  lemma SubmissionOrderErrors(s: Submission)
    ensures var errors := SubmissionErrors(s);
      && (GpsAddress in errors <==> s.gpsAddress == "")
      && (InstallationDate in errors <==> s.installationDate == "")
      && (AgentName in errors <==> s.agentName == "")
      && (PackageKey in errors <==> s.pkg.None?)
  {
  }

  /** The phone number fails exactly when it is not `+233` and nine digits,
      and the message tells a missing number from a malformed one. */
  lemma SubmissionPhoneError(s: Submission)
    ensures var errors := SubmissionErrors(s);
      && (PhoneNumber in errors <==> !IsGhanaPhone(s.phoneNumber))
      && (s.phoneNumber == "" ==> errors[PhoneNumber] == "Phone number is required")
      && (s.phoneNumber != "" && !IsGhanaPhone(s.phoneNumber) ==>
            errors[PhoneNumber] == "Phone number must start with +233 and have 9 digits")
  {
    EmptyFailsPatterns();
  }

  /** The route accepts a form exactly when every field is present and the
      phone number matches; the e-mail's format is left to the table. */
  lemma SubmissionAccepted(s: Submission)
    ensures SubmissionErrors(s) == map[] <==>
      && s.fullName != "" && s.email != "" && s.location != "" && s.homeType != ""
      && s.gpsAddress != "" && s.installationDate != "" && s.agentName != ""
      && s.pkg.Some? && IsGhanaPhone(s.phoneNumber)
  {
    SubmissionCustomerErrors(s);
    SubmissionOrderErrors(s);
    SubmissionPhoneError(s);
    if SubmissionErrors(s) != map[] {
      var k :| k in SubmissionErrors(s);
      assert k in SubmissionFields;
    }
  }

  /** The route's price rule: both prices set, or neither. */
  predicate PackageRuleFails(p: Package) {
    || (IsSet(p.monthlyPrice) && IsSet(p.yearlyPrice))
    || (!IsSet(p.monthlyPrice) && !IsSet(p.yearlyPrice))
  }

  /** The route's price rule and the table's `isValidPackage` agree, so a
      package the route lets through never fails the table's validator. */
  lemma PackageRuleMatchesModel(p: Package)
    ensures PackageRuleFails(p) <==> PackageValidatorThrows(Some(p))
    ensures !PackageRuleFails(p) <==> (IsSet(p.monthlyPrice) != IsSet(p.yearlyPrice))
  {
  }

  // ---------------------------------------------------------------------
  // Finding the agent by name
  // ---------------------------------------------------------------------

  /** `agentName.split(" ")`: the first word is the first name, the second
      word (undefined for a single word) the last name. */
  function ResolveAgent(agents: seq<Agent>, agentName: string): (r: Option<Agent>)
    ensures r.Some? ==>
      && r.value in agents
      && Split(agentName, ' ')[0] == r.value.firstName
      && |Split(agentName, ' ')| >= 2 && Split(agentName, ' ')[1] == r.value.lastName
  {
    FindAgentByName(agents, Split(agentName, ' ')[0], Piece(agentName, ' ', 1))
  }

  /** "First Last" looks up that first and last name. */
  lemma {:induction false} ResolveFullName(agents: seq<Agent>, first: string, last: string)
    requires ' ' !in first && ' ' !in last
    ensures ResolveAgent(agents, first + " " + last) == FindAgentByName(agents, first, Some(last))
  {
    SplitAfterWord(first, ' ', last);
    SplitWithoutSeparator(last, ' ');
  }

  /** Words after the second are ignored: "Ama Mensah Jr" is Ama Mensah. */
  lemma {:induction false} ResolveIgnoresExtraWords(agents: seq<Agent>, first: string, last: string, more: string)
    requires ' ' !in first && ' ' !in last
    ensures ResolveAgent(agents, first + " " + last + " " + more) == ResolveAgent(agents, first + " " + last)
  {
    assert first + " " + last + " " + more == first + [' '] + (last + [' '] + more);
    SplitAfterWord(first, ' ', last + [' '] + more);
    SplitAfterWord(last, ' ', more);
    ResolveFullName(agents, first, last);
  }

  /** A single name never resolves, even when an agent has that first name. */
  lemma {:induction false} SingleNameNotResolved(agents: seq<Agent>, name: string)
    requires ' ' !in name
    ensures ResolveAgent(agents, name) == None
  {
    SplitWithoutSeparator(name, ' ');
  }

  // ---------------------------------------------------------------------
  // The handler
  // ---------------------------------------------------------------------

  /** The row the handler asks the table to create. */
  function SubmittedInfo(s: Submission, p: Package): (info: LeadInfo)
    ensures info.email == s.email && info.phoneNumber == s.phoneNumber && info.pkg == p
    ensures info.fullName == s.fullName && info.location == s.location && info.homeType == s.homeType
    ensures info.gpsAddress == s.gpsAddress && info.installationDate == s.installationDate
  {
    LeadInfo(s.fullName, s.email, s.phoneNumber, s.location, s.homeType,
             s.gpsAddress, s.installationDate, p)
  }

  /** The handler's checks before the insert, in its order: field errors,
      the price rule, an order with the same e-mail, the agent's name.
      `Err` carries the response; `Ok` the agent the order is credited to. */
  function PreCreateChecks(s: Submission, agents: seq<Agent>, leads: seq<Lead>): (r: Result<Agent, Response>)
    ensures SubmissionErrors(s) != map[] ==> r == Err(Response(400, FieldErrors(SubmissionErrors(s))))
    ensures r.Ok? ==>
      && SubmissionErrors(s) == map[] && s.pkg.Some?
      && !PackageRuleFails(s.pkg.value)
      && FindLeadByEmail(leads, s.email).None?
      && r.value in agents && ResolveAgent(agents, s.agentName) == Some(r.value)
    ensures SubmissionErrors(s) == map[] && s.pkg.Some? && PackageRuleFails(s.pkg.value) ==>
      r == Err(Response(400, Message(PackageRuleMessage)))
    ensures && SubmissionErrors(s) == map[] && s.pkg.Some? && !PackageRuleFails(s.pkg.value)
            && FindLeadByEmail(leads, s.email).Some? ==>
      r == Err(Response(400, Message(DuplicateOrderMessage(s.email))))
    ensures && SubmissionErrors(s) == map[] && s.pkg.Some? && !PackageRuleFails(s.pkg.value)
            && FindLeadByEmail(leads, s.email).None? && ResolveAgent(agents, s.agentName).None? ==>
      r == Err(Response(404, Error(AgentNotFoundMessage)))
    ensures && SubmissionErrors(s) == map[] && s.pkg.Some? && !PackageRuleFails(s.pkg.value)
            && FindLeadByEmail(leads, s.email).None? && ResolveAgent(agents, s.agentName).Some? ==>
      r == Ok(ResolveAgent(agents, s.agentName).value)
    ensures r.Err? ==> r.error.status == 400 || r.error == Response(404, Error(AgentNotFoundMessage))
  {
    var errors := SubmissionErrors(s);
    if errors != map[] then Err(Response(400, FieldErrors(errors)))
    else
      SubmissionAccepted(s);
      if PackageRuleFails(s.pkg.value) then Err(Response(400, Message(PackageRuleMessage)))
      else if FindLeadByEmail(leads, s.email).Some? then Err(Response(400, Message(DuplicateOrderMessage(s.email))))
      else
        match ResolveAgent(agents, s.agentName)
        case None => Err(Response(404, Error(AgentNotFoundMessage)))
        case Some(a) => Ok(a)
  }

  /** An order whose e-mail is already taken is refused with 400 before the
      agent is even looked up. */
  lemma DuplicateOrderRefused(s: Submission, agents: seq<Agent>, leads: seq<Lead>, existing: Lead)
    requires SubmissionErrors(s) == map[] && s.pkg.Some? && !PackageRuleFails(s.pkg.value)
    requires existing in leads && existing.info.email == s.email
    ensures PreCreateChecks(s, agents, leads) == Err(Response(400, Message(DuplicateOrderMessage(s.email))))
  {
    var i :| 0 <= i < |leads| && leads[i] == existing;
  }

  /** Once the route's checks pass, the table can refuse the row only for
      the formats the route does not check (the e-mail, the GPS address, the
      date): the phone number, the package, the owner and the e-mail's
      uniqueness are already settled. */
  lemma CreateAfterChecks(s: Submission, agents: seq<Agent>, leads: seq<Lead>, env: Collaborators)
    requires PreCreateChecks(s, agents, leads).Ok?
    ensures var a := PreCreateChecks(s, agents, leads).value;
      var info := SubmittedInfo(s, s.pkg.value);
      var failed := ValidationFailures(info, env);
      && failed <= {Email, GpsAddress, InstallationDate}
      && CheckCreate(info, a.id, agents, leads, env) == if failed == {} then None else Some(InvalidFields(failed))
  {
    var a := PreCreateChecks(s, agents, leads).value;
    var info := SubmittedInfo(s, s.pkg.value);
    SubmissionAccepted(s);
    GhanaPhoneIsE164(s.phoneNumber);
    PackageRuleMatchesModel(s.pkg.value);
    var i :| 0 <= i < |agents| && agents[i] == a;
    assert FindAgentById(agents, a.id).Some?;
  }

  /** `POST /pre-order`. Every refusal leaves both tables as they were; a
      failure of the insert is answered with 500. */
  method Submit(db: Store, s: Submission, now: int, env: Collaborators) returns (resp: Response)
    requires db.Valid()
    modifies db
    ensures db.Valid()
    ensures db.agents == old(db.agents) && db.nextAgentId == old(db.nextAgentId)
    ensures PreCreateChecks(s, old(db.agents), old(db.leads)).Err? ==>
      && resp == PreCreateChecks(s, old(db.agents), old(db.leads)).error
      && db.leads == old(db.leads) && db.nextLeadId == old(db.nextLeadId)
    ensures PreCreateChecks(s, old(db.agents), old(db.leads)).Ok? ==>
      var a := PreCreateChecks(s, old(db.agents), old(db.leads)).value;
      var info := SubmittedInfo(s, s.pkg.value);
      if CheckCreate(info, a.id, old(db.agents), old(db.leads), env).Some? then
        && resp == Response(500, Message(SubmitFailedMessage))
        && db.leads == old(db.leads) && db.nextLeadId == old(db.nextLeadId)
      else
        var lead := Lead(old(db.nextLeadId), info, a.id, Potential, now, now);
        && resp == Response(201, PreOrderCreated(SubmittedMessage, lead))
        && db.leads == old(db.leads) + [lead]
        && db.nextLeadId == old(db.nextLeadId) + 1
  {
    var errors := ValidateSubmission(s);
    if errors != map[] {
      return Response(400, FieldErrors(errors));
    }
    SubmissionAccepted(s);
    var p := s.pkg.value;
    if PackageRuleFails(p) {
      return Response(400, Message(PackageRuleMessage));
    }
    if FindLeadByEmail(db.leads, s.email).Some? {
      return Response(400, Message(DuplicateOrderMessage(s.email)));
    }
    var agent := ResolveAgent(db.agents, s.agentName);
    if agent.None? {
      return Response(404, Error(AgentNotFoundMessage));
    }
    var created := db.CreatePreOrder(SubmittedInfo(s, p), agent.value.id, now, env);
    match created
    case Err(_) =>
      resp := Response(500, Message(SubmitFailedMessage));
    case Ok(lead) =>
      resp := Response(201, PreOrderCreated(SubmittedMessage, lead));
  }

  // ---------------------------------------------------------------------
  // Listing
  // ---------------------------------------------------------------------

  /** `PreOrder.findAll({ where: { agentId } })`, in table order. */
  function OwnedBy(leads: seq<Lead>, agentId: int): (owned: seq<Lead>)
    ensures |owned| <= |leads|
    ensures forall l :: l in owned <==> l in leads && l.agentId == agentId
  {
    if |leads| == 0 then []
    else
      var rest := OwnedBy(leads[1..], agentId);
      assert forall l :: l in leads <==> l == leads[0] || l in leads[1..];
      if leads[0].agentId == agentId then [leads[0]] + rest else rest
  }

  /** A lead added at the end of the table is listed last for its agent and
      not at all for the others. */
  lemma {:induction false} OwnedByAppend(leads: seq<Lead>, l: Lead, agentId: int)
    ensures OwnedBy(leads + [l], agentId) ==
      OwnedBy(leads, agentId) + (if l.agentId == agentId then [l] else [])
  {
    if |leads| == 0 {
      assert [l][1..] == [];
    } else {
      assert (leads + [l])[0] == leads[0];
      assert (leads + [l])[1..] == leads[1..] + [l];
      OwnedByAppend(leads[1..], l, agentId);
    }
  }

  /** The attributes `toJSON` gives a lead fetched with its agent. */
  const RecordKeys: set<Key> :=
    {Id, FullName, Email, PhoneNumber, Location, HomeType, GpsAddress, InstallationDate,
     AgentId, StatusKey, Engagement, PackageKey, CreatedAt, UpdatedAt, AgentKey}

  /** The attributes the handler deletes before answering. */
  const HiddenKeys: set<Key> := {AgentId, AgentKey, Id, CreatedAt, UpdatedAt}

  /** The value of one attribute of the plain object; the included agent
      carries only its first and last name. */
  function LeadField(l: Lead, owner: Option<Agent>, k: Key): Json {
    match k
    case Id => JInt(l.id)
    case FullName => JStr(l.info.fullName)
    case Email => JStr(l.info.email)
    case PhoneNumber => JStr(l.info.phoneNumber)
    case Location => JStr(l.info.location)
    case HomeType => JStr(l.info.homeType)
    case GpsAddress => JStr(l.info.gpsAddress)
    case InstallationDate => JStr(l.info.installationDate)
    case AgentId => JInt(l.agentId)
    case StatusKey => JStr(StatusName(l.status))
    case Engagement => JNull
    case PackageKey => JPackage(l.info.pkg)
    case CreatedAt => JInt(l.createdAt)
    case UpdatedAt => JInt(l.updatedAt)
    case AgentKey => if owner.Some? then JAgent(owner.value.firstName, owner.value.lastName) else JNull
    case _ => JNull
  }

  /** `preOrder.toJSON()` for a lead fetched with `include: agent`; `owner`
      is the agent the join found, if any. */
  function LeadJson(l: Lead, owner: Option<Agent>): map<Key, Json> {
    map k | k in RecordKeys :: LeadField(l, owner, k)
  }

  /** The object after the five `delete`s. */
  function PublicRecord(l: Lead, owner: Option<Agent>): map<Key, Json> {
    LeadJson(l, owner) - HiddenKeys
  }

  /** The answer says nothing about a lead's id, its owner or its timestamps. */
  lemma PublicRecordHidesKeys(l: Lead, owner: Option<Agent>)
    ensures var j := PublicRecord(l, owner);
      Id !in j && AgentId !in j && AgentKey !in j && CreatedAt !in j && UpdatedAt !in j
  {
  }

  /** The answer holds exactly the attributes `toJSON` gives minus the
      deleted ones, each with its `toJSON` value. */
  lemma PublicRecordFields(l: Lead, owner: Option<Agent>)
    ensures var j := PublicRecord(l, owner);
      && (forall k :: k in j <==> k in RecordKeys && k !in HiddenKeys)
      && (forall k :: k in j ==> j[k] == LeadField(l, owner, k))
  {
  }

  /** Two leads with the same submitted fields and status look the same in
      a listing, whatever their ids, owners and timestamps. */
  lemma PublicRecordHidesBookkeeping(l1: Lead, l2: Lead, owner1: Option<Agent>, owner2: Option<Agent>)
    requires l1.info == l2.info && l1.status == l2.status
    ensures PublicRecord(l1, owner1) == PublicRecord(l2, owner2)
  {
    var j1 := PublicRecord(l1, owner1);
    var j2 := PublicRecord(l2, owner2);
    PublicRecordFields(l1, owner1);
    PublicRecordFields(l2, owner2);
    forall k | k in j1
      ensures k in j2 && j1[k] == j2[k]
    {
      VisibleFieldIgnoresBookkeeping(l1, l2, owner1, owner2, k);
    }
    assert j1.Keys == j2.Keys;
  }

  /** An attribute that survives the deletes depends only on the submitted
      fields and the status. */
  lemma VisibleFieldIgnoresBookkeeping(l1: Lead, l2: Lead, owner1: Option<Agent>, owner2: Option<Agent>, k: Key)
    requires l1.info == l2.info && l1.status == l2.status
    requires k !in HiddenKeys
    ensures LeadField(l1, owner1, k) == LeadField(l2, owner2, k)
  {
  }

  /** `preOrders.map(...)`: one public record per lead, in order. */
  function PublicRecords(leads: seq<Lead>, agents: seq<Agent>): (records: seq<map<Key, Json>>)
    ensures |records| == |leads|
    ensures forall i :: 0 <= i < |leads| ==>
      records[i] == PublicRecord(leads[i], FindAgentById(agents, leads[i].agentId))
  {
    seq(|leads|, i requires 0 <= i < |leads| => PublicRecord(leads[i], FindAgentById(agents, leads[i].agentId)))
  }

  /** The listing's message names the agent. */
  function ListMessage(a: Agent): string {
    "Pre-orders associated with agent " + a.firstName + " " + a.lastName
  }

  /** The five `delete`s, applied to the plain object in place. */
  method DeleteHidden(data: map<Key, Json>) returns (stripped: map<Key, Json>)
    ensures stripped == data - HiddenKeys
  {
    stripped := data - {AgentId};
    stripped := stripped - {AgentKey};
    stripped := stripped - {Id};
    stripped := stripped - {CreatedAt};
    stripped := stripped - {UpdatedAt};
  }

  /** The body of `GET /preorders` once the agent is known: the agent's
      leads in table order, each turned into a plain object and stripped.
      The store is only read. */
  method ListPreOrders(db: Store, agent: Agent) returns (resp: Response)
    ensures resp.status == 200 && resp.body.PreOrderList? && resp.body.message == ListMessage(agent)
    ensures resp.body.preOrders == PublicRecords(OwnedBy(db.leads, agent.id), db.agents)
  {
    var preOrders := OwnedBy(db.leads, agent.id);
    var records: seq<map<Key, Json>> := [];
    for i := 0 to |preOrders|
      invariant records == PublicRecords(preOrders[..i], db.agents)
    {
      var l := preOrders[i];
      var data := LeadJson(l, FindAgentById(db.agents, l.agentId));
      data := DeleteHidden(data);
      assert preOrders[..i + 1] == preOrders[..i] + [l];
      records := records + [data];
    }
    assert preOrders[..|preOrders|] == preOrders;
    resp := Response(200, PreOrderList(ListMessage(agent), records));
  }

  /** A pre-order just stored shows up last in its agent's listing, and
      leaves every other agent's listing as it was. */
  lemma {:induction false} StoredOrderIsListed(leads: seq<Lead>, agents: seq<Agent>, l: Lead, agentId: int)
    ensures l.agentId == agentId ==>
      PublicRecords(OwnedBy(leads + [l], agentId), agents) ==
        PublicRecords(OwnedBy(leads, agentId), agents) + [PublicRecord(l, FindAgentById(agents, l.agentId))]
    ensures l.agentId != agentId ==>
      PublicRecords(OwnedBy(leads + [l], agentId), agents) == PublicRecords(OwnedBy(leads, agentId), agents)
  {
    OwnedByAppend(leads, l, agentId);
    if l.agentId == agentId {
      var before := OwnedBy(leads, agentId);
      assert OwnedBy(leads + [l], agentId) == before + [l];
      assert (before + [l])[|before|] == l;
    } else {
      assert OwnedBy(leads, agentId) + [] == OwnedBy(leads, agentId);
    }
  }

  /** `GET /preorders`: the middleware, then the listing for the agent it
      attached to the request. */
  method GetPreOrders(req: Request, db: Store, env: Collaborators) returns (resp: Response)
    modifies req
    ensures AuthDecision(req.authorization, db.agents, env.verify).Err? ==>
      && resp == Rejection(AuthDecision(req.authorization, db.agents, env.verify).error)
      && req.agent == old(req.agent)
    ensures AuthDecision(req.authorization, db.agents, env.verify).Ok? ==>
      var a := AuthDecision(req.authorization, db.agents, env.verify).value;
      && req.agent == Some(a)
      && resp == Response(200, PreOrderList(ListMessage(a), PublicRecords(OwnedBy(db.leads, a.id), db.agents)))
  {
    var rejection := Authenticate(req, db, env);
    if rejection.Some? {
      return rejection.value;
    }
    resp := ListPreOrders(db, req.agent.value);
  }
}
