/** The declarative rules of the pre-order table: the attribute validators,
    the status enumeration and its default, the unique e-mail column, the
    `agentId` foreign key and the `beforeCreate` hook that insists the
    referenced agent exists. */
module PreOrderModel {
  import opened Wrappers
  import opened Text
  import opened Records

  // ---------------------------------------------------------------------
  // Attribute rules
  // ---------------------------------------------------------------------

  /** `isValidPackage`: it throws for a present package whose two prices are
      both set or both unset. */
  predicate PackageValidatorThrows(value: Option<Package>) {
    && value.Some?
    && (|| (IsSet(value.value.monthlyPrice) && IsSet(value.value.yearlyPrice))
        || (!IsSet(value.value.monthlyPrice) && !IsSet(value.value.yearlyPrice)))
  }

  /** A package passes `isValidPackage` exactly when one of its prices is set. */
  lemma PackageValidatorAcceptsExactlyOne(p: Package)
    ensures !PackageValidatorThrows(Some(p)) <==> (IsSet(p.monthlyPrice) != IsSet(p.yearlyPrice))
    ensures !PackageValidatorThrows(None)
  {
  }

  /** The `status` column is `ENUM('active', 'inactive', 'potential')`: every
      status has one of the three names and no two statuses share a name. */
  lemma StatusNamesAreTheEnum()
    ensures forall st :: StatusName(st) in {"active", "inactive", "potential"}
    ensures forall a, b :: StatusName(a) == StatusName(b) ==> a == b
  {
    forall a, b | StatusName(a) == StatusName(b) ensures a == b {
      assert StatusName(a)[0] == StatusName(b)[0];
    }
  }

  /** The `status` column: `defaultValue: 'potential'` when none is given. */
  function StatusOnCreate(given: Option<Status>): (s: Status)
    ensures given.None? ==> s == Potential
    ensures given.Some? ==> s == given.value
  {
    if given.Some? then given.value else Potential
  }

  /** `/^\+?[1-9]\d{1,14}$/`: an optional `+`, then a non-zero digit, then one
      to fourteen more digits (an E.164-style number of 2 to 15 digits). */
  predicate IsE164Phone(s: string) {
    var digits := if |s| > 0 && s[0] == '+' then s[1..] else s;
    && 2 <= |digits| <= 15
    && '1' <= digits[0] <= '9'
    && AllDigits(digits)
  }

  /** Every number the routes accept (`+233` and nine digits) also passes the
      table's phone rule. */
  lemma GhanaPhoneIsE164(s: string)
    requires IsGhanaPhone(s)
    ensures IsE164Phone(s)
  {
    assert s[0] == "+233"[0] == '+';
    var digits := s[1..];
    assert digits[0] == s[1] == "+233"[1] == '2';
    assert digits[1] == "+233"[2] && digits[2] == "+233"[3];
    forall k | 0 <= k < |digits| ensures IsDigit(digits[k]) {
      if k >= 3 {
        assert digits[k] == s[4..][k - 3];
      }
    }
  }

  /** The table accepts numbers the routes refuse: without `+`, or from any country. */
  lemma E164IsWiderThanGhanaPhone()
    ensures IsE164Phone("+4420712345678") && !IsGhanaPhone("+4420712345678")
    ensures IsE164Phone("233201234567") && !IsGhanaPhone("233201234567")
  {
    assert "+4420712345678"[..4] != "+233" by {
      assert "+4420712345678"[..4][1] == '4';
    }
  }

  /** `/^[A-Z]{2}-\d{4}-\d{4}$/`, the Ghana Post GPS address style. */
  predicate IsGpsAddress(s: string) {
    && |s| == 12
    && IsUpper(s[0]) && IsUpper(s[1])
    && s[2] == '-' && AllDigits(s[3..7])
    && s[7] == '-' && AllDigits(s[8..])
  }

  /** Two capital letters, four digits and four digits, joined by dashes,
      always make an address the pattern accepts. */
  lemma {:induction false} GpsAddressFromParts(region: string, district: string, unique: string)
    requires |region| == 2 && IsUpper(region[0]) && IsUpper(region[1])
    requires |district| == 4 && AllDigits(district)
    requires |unique| == 4 && AllDigits(unique)
    ensures IsGpsAddress(region + "-" + district + "-" + unique)
  {
    var s := region + "-" + district + "-" + unique;
    assert s[..2] == region && s[3..7] == district && s[8..] == unique;
  }

  /** Conversely, every accepted address is made of exactly those parts. */
  lemma {:induction false} GpsAddressParts(s: string)
    requires IsGpsAddress(s)
    ensures s == s[..2] + "-" + s[3..7] + "-" + s[8..]
    ensures IsUpper(s[..2][0]) && IsUpper(s[..2][1])
    ensures |s[3..7]| == 4 && AllDigits(s[3..7]) && |s[8..]| == 4 && AllDigits(s[8..])
  {
    assert s == s[..2] + [s[2]] + s[3..7] + [s[7]] + s[8..];
  }

  lemma GpsAddressExamples()
    ensures IsGpsAddress("AK-0039-5028")
    ensures !IsGpsAddress("ak-0039-5028")
    ensures !IsGpsAddress("AK-039-5028")
  {
    assert AllDigits("AK-0039-5028"[3..7]) by {
      assert "AK-0039-5028"[3..7] == "0039";
    }
    assert AllDigits("AK-0039-5028"[8..]) by {
      assert "AK-0039-5028"[8..] == "5028";
    }
  }

  // ---------------------------------------------------------------------
  // Creating a row
  // ---------------------------------------------------------------------

  const ValidatedFields: set<Key> := {Email, PhoneNumber, GpsAddress, InstallationDate, PackageKey}

  /** The attributes whose validators reject the row. Sequelize runs them all
      and reports every failure together. */
  function ValidationFailures(info: LeadInfo, env: Collaborators): (failed: set<Key>)
    ensures failed <= ValidatedFields
    ensures Email in failed <==> !env.isEmail(info.email)
    ensures PhoneNumber in failed <==> !IsE164Phone(info.phoneNumber)
    ensures GpsAddress in failed <==> !IsGpsAddress(info.gpsAddress)
    ensures InstallationDate in failed <==> !env.isDate(info.installationDate)
    ensures PackageKey in failed <==> PackageValidatorThrows(Some(info.pkg))
  {
    set f | f in ValidatedFields && !FieldPasses(info, f, env)
  }

  predicate FieldPasses(info: LeadInfo, field: Key, env: Collaborators) {
    match field
    case Email => env.isEmail(info.email)
    case PhoneNumber => IsE164Phone(info.phoneNumber)
    case GpsAddress => IsGpsAddress(info.gpsAddress)
    case InstallationDate => env.isDate(info.installationDate)
    case PackageKey => !PackageValidatorThrows(Some(info.pkg))
    case _ => true
  }

  datatype CreateError =
    | InvalidFields(fields: set<Key>)   // validation error
    | HookAgentNotFound                    // thrown by beforeCreate
    | EmailTaken                           // unique constraint on email
    | ForeignKeyViolation                  // agentId references no agent

  /** `PreOrder.create`: validators first, then the `beforeCreate` hook
      (which only reads the agent table, and only when `agentId` is truthy),
      then the insert with its unique and foreign-key constraints. `None`
      means the row is stored. */
  function CheckCreate(info: LeadInfo, agentId: int, agents: seq<Agent>, leads: seq<Lead>, env: Collaborators): (r: Option<CreateError>)
    ensures r.None? <==>
      && ValidationFailures(info, env) == {}
      && FindAgentById(agents, agentId).Some?
      && FindLeadByEmail(leads, info.email).None?
    ensures ValidationFailures(info, env) != {} ==> r == Some(InvalidFields(ValidationFailures(info, env)))
    ensures ValidationFailures(info, env) == {} && agentId != 0 && FindAgentById(agents, agentId).None? ==>
      r == Some(HookAgentNotFound)
    ensures r == Some(EmailTaken) ==> FindAgentById(agents, agentId).Some?
  {
    var failed := ValidationFailures(info, env);
    if failed != {} then Some(InvalidFields(failed))
    else if agentId != 0 && FindAgentById(agents, agentId).None? then Some(HookAgentNotFound)
    else if FindLeadByEmail(leads, info.email).Some? then
      if FindAgentById(agents, agentId).None? then Some(ForeignKeyViolation) else Some(EmailTaken)
    else if FindAgentById(agents, agentId).None? then Some(ForeignKeyViolation)
    else None
  }

  /** A row whose e-mail is already in the table is never stored, whatever
      else it holds. */
  lemma DuplicateEmailNeverStored(info: LeadInfo, agentId: int, agents: seq<Agent>, leads: seq<Lead>, env: Collaborators, existing: Lead)
    requires existing in leads && existing.info.email == info.email
    ensures CheckCreate(info, agentId, agents, leads, env).Some?
  {
    var i :| 0 <= i < |leads| && leads[i] == existing;
  }
}
