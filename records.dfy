/** The entities of the backend (agents, pre-order leads, token payloads),
    the shape of an HTTP response, the collaborators the core calls but does
    not implement, and the first-match lookups `findOne` / `findByPk` perform
    on a table. */
module Records {
  import opened Wrappers
  import opened Text

  /** A registered sales agent. The password is whatever the agent model
      stores for it; hashing is outside this model. */
  datatype Agent = Agent(
    id: int,
    firstName: string,
    lastName: string,
    email: string,
    phone: string,
    location: string,
    region: string,
    hearAboutUs: string,
    password: string,
    agree: bool)

  /** What a session token carries: the JWT payload `{id, email}`. */
  datatype TokenPayload = TokenPayload(id: int, email: string)

  /** The decoded claims of a verified token; `id` may be absent. */
  datatype Claims = Claims(id: Option<int>)

  datatype Status = Active | Inactive | Potential

  function StatusName(s: Status): string {
    match s
    case Active => "active"
    case Inactive => "inactive"
    case Potential => "potential"
  }

  /** A price is "set" in the JavaScript sense: present and not zero. */
  predicate IsSet(price: Option<int>) {
    price.Some? && price.value != 0
  }

  /** The `package` object of a submission. */
  datatype Package = Package(title: string, monthlyPrice: Option<int>, yearlyPrice: Option<int>)

  /** The customer-supplied part of a lead, exactly as submitted. */
  datatype LeadInfo = LeadInfo(
    fullName: string,
    email: string,
    phoneNumber: string,
    location: string,
    homeType: string,
    gpsAddress: string,
    installationDate: string,
    pkg: Package)

  /** A stored pre-order: the submitted fields plus what the table adds. */
  datatype Lead = Lead(
    id: int,
    info: LeadInfo,
    agentId: int,
    status: Status,
    createdAt: int,
    updatedAt: int)

  /** The property names the handlers put into, or delete from, a JSON
      object: the keys of an error map and of a lead record. */
  datatype Key =
    | FirstName | LastName | Email | Phone | Location | Region | HearAboutUs
    | Password | ConfirmPassword | Agree
    | FullName | PhoneNumber | HomeType | GpsAddress | InstallationDate
    | AgentName | PackageKey
    | Id | AgentId | StatusKey | Engagement | CreatedAt | UpdatedAt | AgentKey

  /** `errors.k = msg` when a check produced a message, nothing otherwise. */
  function AddError(errors: map<Key, string>, k: Key, msg: Option<string>): (e: map<Key, string>)
    ensures forall j :: j in e <==> j in errors || (j == k && msg.Some?)
    ensures forall j :: j in e ==> e[j] == if j == k && msg.Some? then msg.value else errors[j]
  {
    if msg.Some? then errors[k := msg.value] else errors
  }

  /** The values of a lead record once it is turned into a plain object. */
  datatype Json =
    | JStr(s: string)
    | JInt(n: int)
    | JNull
    | JPackage(p: Package)
    | JAgent(firstName: string, lastName: string)

  datatype Body =
    | FieldErrors(errors: map<Key, string>)     // { errors }
    | Message(text: string)                        // { message }
    | Error(text: string)                          // { error }
    | Registered(message: string, newAgent: Agent, token: TokenPayload, redirectUrl: string)
    | LoggedIn(success: bool, message: string, agent: Agent, token: TokenPayload, redirectUrl: string)
    | PreOrderCreated(message: string, preOrder: Lead)
    | PreOrderList(message: string, preOrders: seq<map<Key, Json>>)

  datatype Response = Response(status: int, body: Body)

  /** The code the core calls without seeing: JWT verification, the agent
      model's password comparison, and the `isEmail` / `isDate` validators. */
  datatype Collaborators = Collaborators(
    verify: string -> Option<Claims>,
    comparePassword: (Agent, string) -> bool,
    isEmail: string -> bool,
    isDate: string -> bool)

  // ---------------------------------------------------------------------
  // Lookups: the first row, in table order, that satisfies a condition
  // ---------------------------------------------------------------------

  function First<T>(s: seq<T>, p: T -> bool): (r: Option<T>)
    ensures r.Some? ==> r.value in s && p(r.value)
    ensures r.None? <==> forall i :: 0 <= i < |s| ==> !p(s[i])
    ensures r.Some? ==> exists i :: 0 <= i < |s| && s[i] == r.value && forall j :: 0 <= j < i ==> !p(s[j])
  {
    if |s| == 0 then None
    else if p(s[0]) then Some(s[0])
    else
      var r := First(s[1..], p);
      assert forall i :: 1 <= i < |s| ==> s[i] == s[1..][i - 1];
      r
  }

  /** Appending rows never changes a lookup that already succeeds, and a
      lookup that failed before looks only at the new rows. */
  lemma {:induction false} FirstAppend<T>(s: seq<T>, t: seq<T>, p: T -> bool)
    ensures First(s, p).Some? ==> First(s + t, p) == First(s, p)
    ensures First(s, p).None? ==> First(s + t, p) == First(t, p)
  {
    if |s| > 0 {
      assert (s + t)[0] == s[0];
      assert (s + t)[1..] == s[1..] + t;
      FirstAppend(s[1..], t, p);
    } else {
      assert s + t == t;
    }
  }

  /** `Agent.findOne({ where: { email } })`, comparing the strings exactly. */
  function FindAgentByEmail(agents: seq<Agent>, email: string): (r: Option<Agent>)
    ensures r.Some? ==> r.value in agents && r.value.email == email
    ensures r.None? <==> forall i :: 0 <= i < |agents| ==> agents[i].email != email
  {
    First(agents, (a: Agent) => a.email == email)
  }

  /** `Agent.findByPk(id)`. */
  function FindAgentById(agents: seq<Agent>, id: int): (r: Option<Agent>)
    ensures r.Some? ==> r.value in agents && r.value.id == id
    ensures r.None? <==> forall i :: 0 <= i < |agents| ==> agents[i].id != id
  {
    First(agents, (a: Agent) => a.id == id)
  }

  /** `Agent.findOne({ where: { firstName, lastName } })`; an undefined
      `lastName` matches no agent. */
  function FindAgentByName(agents: seq<Agent>, firstName: string, lastName: Option<string>): (r: Option<Agent>)
    ensures r.Some? ==> r.value in agents && r.value.firstName == firstName && lastName == Some(r.value.lastName)
    ensures r.None? <==> forall i :: 0 <= i < |agents| ==> !(agents[i].firstName == firstName && lastName == Some(agents[i].lastName))
  {
    First(agents, (a: Agent) => a.firstName == firstName && lastName == Some(a.lastName))
  }

  /** `PreOrder.findOne({ where: { email } })`. */
  function FindLeadByEmail(leads: seq<Lead>, email: string): (r: Option<Lead>)
    ensures r.Some? ==> r.value in leads && r.value.info.email == email
    ensures r.None? <==> forall i :: 0 <= i < |leads| ==> leads[i].info.email != email
  {
    First(leads, (l: Lead) => l.info.email == email)
  }
}
