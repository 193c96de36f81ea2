/** The conformance validator: three imperative checks that fill a report, and the declarative rule
    that the report stands for. */
module Conformance {
  import opened Basics

  // ---------------------------------------------------------------- what is validated

  datatype Trusteeship = Trusteeship(interestRate: real, insolvencyProtected: bool)

  datatype Instance = Instance(
    tenantFirst: string, tenantLast: string, tenantEmail: string, landlordName: string,
    amount: real, currency: string, depositType: string, version: string, country: string,
    pledgeBasis: Option<string>, trusteeship: Option<Trusteeship>)

  // ---------------------------------------------------------------- statutory rules

  datatype Rule = Rule(bases: seq<string>, currency: string, maxMonths: real, allowedTypes: seq<string>, interestRequired: bool)

  function RuleFor(country: string): Option<Rule>
  {
    if country == "DE" then Some(Rule(["BGB \U{00A7} 551"], "EUR", 3.0, ["CASH_EQUIVALENT", "BANK_GUARANTEE", "SURETY"], false))
    else if country == "CH" then Some(Rule(["OR Art. 257e"], "CHF", 3.0, [], true))
    else if country == "AT" then Some(Rule(["MRG \U{00A7} 16b", "ABGB \U{00A7} 1346"], "EUR", 3.0, [], false))
    else if country == "BE" then Some(Rule(["Woninghuurwet", "Code civil belge"], "EUR", 2.0, [], false))
    else if country == "NL" then Some(Rule(["BW Art. 7:261"], "EUR", 2.0, ["CASH_EQUIVALENT"], false))
    else if country == "NO" then Some(Rule(["Husleieloven \U{00A7} 3-5"], "NOK", 6.0, [], true))
    else if country == "GB" then Some(Rule(["Housing Act 2004", "Tenant Fees Act 2019"], "GBP", 1.15, [], false))
    else if country == "FR" then Some(Rule(["Loi ALUR", "Loi 89-462"], "EUR", 1.0, ["CASH_EQUIVALENT", "SURETY"], false))
    else if country == "ES" then Some(Rule(["LAU Art. 36"], "EUR", 1.0, [], false))
    else None
  }

  const KNOWN_TYPES: seq<string> := ["CASH_EQUIVALENT", "BANK_GUARANTEE", "INSURANCE", "SURETY"]

  predicate StartsAt(s: string, sub: string, i: nat)
  {
    i + |sub| <= |s| && s[i..i + |sub|] == sub
  }

  predicate Contains(s: string, sub: string)
  {
    exists i :: 0 <= i <= |s| && StartsAt(s, sub, i)
  }

  predicate BasisMatches(basis: string, bases: seq<string>)
  {
    exists i :: 0 <= i < |bases| && Contains(basis, bases[i])
  }

  /** The cap, with its tolerance of half a percent. */
  predicate OverCap(amount: real, maxMonths: real, rent: real)
  {
    amount > maxMonths * rent * 1.005
  }

  // ---------------------------------------------------------------- findings

  datatype Code =
    | MissingTenantFields | MissingLandlordName | InvalidAmount | MissingCurrency | MissingType
    | MissingVersion | MissingCountry
    | UnknownType
    | UnknownJurisdiction | WrongCurrency | DisallowedType | CapExceeded
    | UnexpectedStatutoryBasis | InterestRequired | MissingTrusteeship | InsolvencyProtectionUnconfirmed

  datatype Severity = Error | Warning | Note

  datatype Finding = Finding(severity: Severity, code: Code, rule: string)

  /** The order in which the checks come. */
  function Ord(c: Code): nat
  {
    match c
    case MissingTenantFields => 0
    case MissingLandlordName => 1
    case InvalidAmount => 2
    case MissingCurrency => 3
    case MissingType => 4
    case MissingVersion => 5
    case MissingCountry => 6
    case UnknownType => 7
    case UnknownJurisdiction => 8
    case WrongCurrency => 9
    case DisallowedType => 10
    case CapExceeded => 11
    case UnexpectedStatutoryBasis => 12
    case InterestRequired => 13
    case MissingTrusteeship => 14
    case InsolvencyProtectionUnconfirmed => 15
  }

  function SeverityOf(c: Code): Severity
  {
    match c
    case MissingTenantFields | MissingLandlordName | InvalidAmount | MissingCurrency | MissingType
       | UnknownType | WrongCurrency | DisallowedType | CapExceeded => Error
    case UnknownJurisdiction => Note
    case _ => Warning
  }

  /** When a code is due, each by its own condition. */
  predicate Due(d: Instance, rule: Option<Rule>, rent: real, c: Code)
  {
    match c
    case MissingTenantFields => d.tenantFirst == "" || d.tenantLast == "" || d.tenantEmail == ""
    case MissingLandlordName => d.landlordName == ""
    case InvalidAmount => d.amount <= 0.0
    case MissingCurrency => d.currency == ""
    case MissingType => d.depositType == ""
    case MissingVersion => d.version == ""
    case MissingCountry => d.country == ""
    case UnknownType => d.depositType != "" && d.depositType !in KNOWN_TYPES
    case UnknownJurisdiction => d.country != "" && rule.None?
    case WrongCurrency =>
      rule.Some? && rule.value.currency != "" && d.currency != "" && d.currency != rule.value.currency
    case DisallowedType =>
      rule.Some? && rule.value.allowedTypes != [] && d.depositType != "" && d.depositType !in rule.value.allowedTypes
    case CapExceeded =>
      rule.Some? && rule.value.maxMonths > 0.0 && rent > 0.0 && d.amount > 0.0 && OverCap(d.amount, rule.value.maxMonths, rent)
    case UnexpectedStatutoryBasis =>
      && rule.Some? && d.pledgeBasis.Some? && d.pledgeBasis.value != ""
      && rule.value.bases != [] && !BasisMatches(d.pledgeBasis.value, rule.value.bases)
    case InterestRequired =>
      rule.Some? && rule.value.interestRequired && (d.trusteeship.None? || d.trusteeship.value.interestRate == 0.0)
    case MissingTrusteeship => rule.Some? && d.depositType == "CASH_EQUIVALENT" && d.trusteeship.None?
    case InsolvencyProtectionUnconfirmed =>
      rule.Some? && d.trusteeship.Some? && !d.trusteeship.value.insolvencyProtected
  }

  function PrimaryReference(rule: Option<Rule>): string
  {
    if rule.None? || rule.value.bases == [] then "" else rule.value.bases[0]
  }

  function FindingFor(rule: Option<Rule>, c: Code): Finding
  {
    Finding(SeverityOf(c), c, if Ord(c) > Ord(UnknownJurisdiction) then PrimaryReference(rule) else "")
  }

  function CodeAt(n: nat): Code
    requires n < 16
  {
    [MissingTenantFields, MissingLandlordName, InvalidAmount, MissingCurrency, MissingType, MissingVersion,
     MissingCountry, UnknownType, UnknownJurisdiction, WrongCurrency, DisallowedType, CapExceeded,
     UnexpectedStatutoryBasis, InterestRequired, MissingTrusteeship, InsolvencyProtectionUnconfirmed][n]
  }

  lemma CodeAtOrd(c: Code)
    ensures Ord(c) < 16 && CodeAt(Ord(c)) == c
  {
  }

  lemma OrdCodeAt(n: nat)
    requires n < 16
    ensures Ord(CodeAt(n)) == n
  {
  }

  /** The findings of the first `n` checks. */
  function Upto(d: Instance, rule: Option<Rule>, rent: real, n: nat): seq<Finding>
    requires n <= 16
  {
    if n == 0 then []
    else
      var c := CodeAt(n - 1);
      if Due(d, rule, rent, c) then Upto(d, rule, rent, n - 1) + [FindingFor(rule, c)] else Upto(d, rule, rent, n - 1)
  }

  /** The findings are those of the due codes among the first `n`, each once, in order. */
  ghost predicate Covers(fs: seq<Finding>, d: Instance, rule: Option<Rule>, rent: real, n: nat)
  {
    && (forall i :: 0 <= i < |fs| ==>
          Ord(fs[i].code) < n && Due(d, rule, rent, fs[i].code) && fs[i] == FindingFor(rule, fs[i].code))
    && (forall i, j :: 0 <= i < j < |fs| ==> Ord(fs[i].code) < Ord(fs[j].code))
    && (forall c :: Ord(c) < n && Due(d, rule, rent, c) ==> exists i :: 0 <= i < |fs| && fs[i].code == c)
  }

  lemma CoversMore(fs: seq<Finding>, d: Instance, rule: Option<Rule>, rent: real, c: Code)
    requires Covers(fs, d, rule, rent, Ord(c))
    ensures Covers(if Due(d, rule, rent, c) then fs + [FindingFor(rule, c)] else fs, d, rule, rent, Ord(c) + 1)
  {
    var fs' := if Due(d, rule, rent, c) then fs + [FindingFor(rule, c)] else fs;
    forall b | Ord(b) < Ord(c) + 1 && Due(d, rule, rent, b) ensures exists i :: 0 <= i < |fs'| && fs'[i].code == b {
      if Ord(b) == Ord(c) {
        CodeAtOrd(b);
        CodeAtOrd(c);
        assert fs'[|fs|].code == b;
      } else {
        var i :| 0 <= i < |fs| && fs[i].code == b;
        assert fs'[i].code == b;
      }
    }
  }

  lemma {:induction false} UptoCovers(d: Instance, rule: Option<Rule>, rent: real, n: nat)
    requires n <= 16
    ensures Covers(Upto(d, rule, rent, n), d, rule, rent, n)
  {
    if n > 0 {
      UptoCovers(d, rule, rent, n - 1);
      OrdCodeAt(n - 1);
      CoversMore(Upto(d, rule, rent, n - 1), d, rule, rent, CodeAt(n - 1));
    }
  }

  /** Without a rule nothing beyond the ninth check is due; without a country, nothing beyond the eighth. */
  lemma {:induction false} UptoNoRule(d: Instance, rent: real, n: nat)
    requires 9 <= n <= 16
    ensures Upto(d, None, rent, n) == Upto(d, None, rent, 9)
    ensures d.country == "" ==> Upto(d, None, rent, n) == Upto(d, None, rent, 8)
  {
    if n > 9 {
      UptoNoRule(d, rent, n - 1);
      OrdCodeAt(n - 1);
    }
  }

  // ---------------------------------------------------------------- the report

  class Report {
    var valid: bool
    var jurisdiction: string
    var findings: seq<Finding>

    constructor ()
      ensures findings == []
    {
      valid, jurisdiction, findings := true, "", [];
    }

    method Add(severity: Severity, code: Code, rule: string)
      modifies this`findings
      ensures findings == old(findings) + [Finding(severity, code, rule)]
    {
      findings := findings + [Finding(severity, code, rule)];
    }

    method HasErrors() returns (b: bool)
      ensures b <==> exists i :: 0 <= i < |findings| && findings[i].severity == Error
    {
      for i := 0 to |findings|
        invariant forall k :: 0 <= k < i ==> findings[k].severity != Error
      {
        if findings[i].severity == Error {
          return true;
        }
      }
      return false;
    }

    /** One check of the list: the finding is added when it is due. */
    method Check(due: bool, code: Code, ref: string, ghost d: Instance, ghost rule: Option<Rule>, ghost rent: real)
      requires Ord(code) < 16 && findings == Upto(d, rule, rent, Ord(code))
      requires due == Due(d, rule, rent, code)
      requires ref == FindingFor(rule, code).rule
      modifies this`findings
      ensures findings == Upto(d, rule, rent, Ord(code) + 1)
    {
      CodeAtOrd(code);
      if due {
        Add(SeverityOf(code), code, ref);
      }
    }

    method CheckRequired(d: Instance, ghost rule: Option<Rule>, ghost rent: real)
      requires findings == []
      modifies this`findings
      ensures findings == Upto(d, rule, rent, 7)
    {
      Check(d.tenantFirst == "" || d.tenantLast == "" || d.tenantEmail == "", MissingTenantFields, "", d, rule, rent);
      Check(d.landlordName == "", MissingLandlordName, "", d, rule, rent);
      Check(d.amount <= 0.0, InvalidAmount, "", d, rule, rent);
      Check(d.currency == "", MissingCurrency, "", d, rule, rent);
      CheckMore(d, rule, rent);
    }

    method CheckMore(d: Instance, ghost rule: Option<Rule>, ghost rent: real)
      requires findings == Upto(d, rule, rent, 4)
      modifies this`findings
      ensures findings == Upto(d, rule, rent, 7)
    {
      Check(d.depositType == "", MissingType, "", d, rule, rent);
      Check(d.version == "", MissingVersion, "", d, rule, rent);
      Check(d.country == "", MissingCountry, "", d, rule, rent);
    }

    method CheckDepositType(d: Instance, ghost rule: Option<Rule>, ghost rent: real)
      requires findings == Upto(d, rule, rent, 7)
      modifies this`findings
      ensures findings == Upto(d, rule, rent, 8)
    {
      Check(d.depositType != "" && d.depositType !in KNOWN_TYPES, UnknownType, "", d, rule, rent);
    }

    method CheckJurisdiction(d: Instance, rule: Option<Rule>, rent: real)
      requires rule == RuleFor(d.country)
      requires findings == Upto(d, rule, rent, 8)
      modifies this`findings, this`jurisdiction
      ensures findings == Upto(d, rule, rent, 16) && jurisdiction == d.country
    {
      jurisdiction := d.country;
      if d.country == "" {
        UptoNoRule(d, rent, 16);
        return;
      }
      Check(rule.None?, UnknownJurisdiction, "", d, rule, rent);
      if rule.None? {
        UptoNoRule(d, rent, 16);
        return;
      }
      CheckCurrencyAndType(d, rule.value, rent);
      CheckCapAndBasis(d, rule.value, rent);
      CheckTrusteeship(d, rule.value, rent);
    }

    method CheckCurrencyAndType(d: Instance, r: Rule, ghost rent: real)
      requires findings == Upto(d, Some(r), rent, 9)
      modifies this`findings
      ensures findings == Upto(d, Some(r), rent, 11)
    {
      var ref := PrimaryReference(Some(r));
      Check(r.currency != "" && d.currency != "" && d.currency != r.currency, WrongCurrency, ref, d, Some(r), rent);
      var disallowed := false;
      if |r.allowedTypes| > 0 && d.depositType != "" {
        var allowed := IsAllowed(d.depositType, r.allowedTypes);
        disallowed := !allowed;
      }
      Check(disallowed, DisallowedType, ref, d, Some(r), rent);
    }

    method CheckCapAndBasis(d: Instance, r: Rule, rent: real)
      requires findings == Upto(d, Some(r), rent, 11)
      modifies this`findings
      ensures findings == Upto(d, Some(r), rent, 13)
    {
      var ref := PrimaryReference(Some(r));
      Check(r.maxMonths > 0.0 && rent > 0.0 && d.amount > 0.0 && OverCap(d.amount, r.maxMonths, rent),
            CapExceeded, ref, d, Some(r), rent);
      var unmatched := false;
      if d.pledgeBasis.Some? && d.pledgeBasis.value != "" && |r.bases| > 0 {
        var matched := MatchesBasis(d.pledgeBasis.value, r.bases);
        unmatched := !matched;
      }
      Check(unmatched, UnexpectedStatutoryBasis, ref, d, Some(r), rent);
    }

    method CheckTrusteeship(d: Instance, r: Rule, rent: real)
      requires findings == Upto(d, Some(r), rent, 13)
      modifies this`findings
      ensures findings == Upto(d, Some(r), rent, 16)
    {
      var ref := PrimaryReference(Some(r));
      Check(r.interestRequired && (d.trusteeship.None? || d.trusteeship.value.interestRate == 0.0),
            InterestRequired, ref, d, Some(r), rent);
      Check(d.depositType == "CASH_EQUIVALENT" && d.trusteeship.None?, MissingTrusteeship, ref, d, Some(r), rent);
      Check(d.trusteeship.Some? && !d.trusteeship.value.insolvencyProtected,
            InsolvencyProtectionUnconfirmed, ref, d, Some(r), rent);
    }
  }

  method IsAllowed(t: string, types: seq<string>) returns (allowed: bool)
    ensures allowed <==> t in types
  {
    for i := 0 to |types|
      invariant t !in types[..i]
    {
      if types[i] == t {
        return true;
      }
    }
    return false;
  }

  method MatchesBasis(basis: string, bases: seq<string>) returns (matched: bool)
    ensures matched <==> BasisMatches(basis, bases)
  {
    for i := 0 to |bases|
      invariant forall k :: 0 <= k < i ==> !Contains(basis, bases[k])
    {
      if Contains(basis, bases[i]) {
        return true;
      }
    }
    return false;
  }

  // ---------------------------------------------------------------- the verdict

  /** What a conformant deposit is, in one sentence per requirement. */
  predicate Conformant(d: Instance, rent: real)
  {
    Meets(d, RuleFor(d.country), rent)
  }

  predicate Meets(d: Instance, rule: Option<Rule>, rent: real)
  {
    && d.tenantFirst != "" && d.tenantLast != "" && d.tenantEmail != "" && d.landlordName != ""
    && d.amount > 0.0
    && d.depositType in KNOWN_TYPES
    && d.currency != ""
    && (rule.Some? ==>
          && d.currency == rule.value.currency
          && (rule.value.allowedTypes == [] || d.depositType in rule.value.allowedTypes)
          && (rent > 0.0 ==> d.amount <= rule.value.maxMonths * rent * 1.005))
  }

  lemma RulesAreReal(country: string)
    ensures RuleFor(country).Some? ==>
              var r := RuleFor(country).value;
              r.maxMonths > 0.0 && r.currency != "" && r.bases != []
  {
  }

  ghost predicate Blameless(d: Instance, rule: Option<Rule>, rent: real)
  {
    forall c :: SeverityOf(c) == Error ==> !Due(d, rule, rent, c)
  }

  lemma BlamelessMeets(d: Instance, rule: Option<Rule>, rent: real)
    requires rule.Some? ==> rule.value.maxMonths > 0.0 && rule.value.currency != ""
    requires Blameless(d, rule, rent)
    ensures Meets(d, rule, rent)
  {
    assert !Due(d, rule, rent, MissingTenantFields) && !Due(d, rule, rent, MissingLandlordName);
    assert !Due(d, rule, rent, InvalidAmount) && !Due(d, rule, rent, MissingCurrency);
    assert !Due(d, rule, rent, MissingType) && !Due(d, rule, rent, UnknownType);
    assert !Due(d, rule, rent, WrongCurrency) && !Due(d, rule, rent, DisallowedType);
    assert !Due(d, rule, rent, CapExceeded);
  }

  lemma MeetsBlameless(d: Instance, rule: Option<Rule>, rent: real)
    requires Meets(d, rule, rent)
    ensures Blameless(d, rule, rent)
  {
  }

  lemma ConformantExactly(d: Instance, rent: real)
    ensures Conformant(d, rent) <==> Blameless(d, RuleFor(d.country), rent)
  {
    RulesAreReal(d.country);
    if Conformant(d, rent) {
      MeetsBlameless(d, RuleFor(d.country), rent);
    } else if Blameless(d, RuleFor(d.country), rent) {
      BlamelessMeets(d, RuleFor(d.country), rent);
    }
  }

  lemma AllCodesCovered(fs: seq<Finding>, d: Instance, rule: Option<Rule>, rent: real, c: Code)
    requires Covers(fs, d, rule, rent, 16)
    ensures (exists i :: 0 <= i < |fs| && fs[i].code == c) <==> Due(d, rule, rent, c)
  {
    CodeAtOrd(c);
  }

  /** Whether a report holds an error depends on the due codes alone. */
  lemma ErrorsOf(fs: seq<Finding>, d: Instance, rule: Option<Rule>, rent: real)
    requires Covers(fs, d, rule, rent, 16)
    ensures (exists i :: 0 <= i < |fs| && fs[i].severity == Error)
            <==> (exists c :: SeverityOf(c) == Error && Due(d, rule, rent, c))
  {
    if i :| 0 <= i < |fs| && fs[i].severity == Error {
      assert SeverityOf(fs[i].code) == Error && Due(d, rule, rent, fs[i].code);
    }
    if c :| SeverityOf(c) == Error && Due(d, rule, rent, c) {
      AllCodesCovered(fs, d, rule, rent, c);
      var i :| 0 <= i < |fs| && fs[i].code == c;
      assert fs[i].severity == Error;
    }
  }

  lemma VerdictOf(fs: seq<Finding>, d: Instance, rent: real)
    requires Covers(fs, d, RuleFor(d.country), rent, 16)
    ensures (exists i :: 0 <= i < |fs| && fs[i].severity == Error) <==> !Conformant(d, rent)
  {
    ErrorsOf(fs, d, RuleFor(d.country), rent);
    ConformantExactly(d, rent);
  }

  ghost predicate Reports(fs: seq<Finding>, c: Code)
  {
    exists i :: 0 <= i < |fs| && fs[i].code == c
  }

  /** The nine errors, each with what it complains of. */
  ghost predicate ErrorsExplained(fs: seq<Finding>, d: Instance, rule: Option<Rule>, rent: real)
  {
    && (Reports(fs, MissingTenantFields) <==> d.tenantFirst == "" || d.tenantLast == "" || d.tenantEmail == "")
    && (Reports(fs, MissingLandlordName) <==> d.landlordName == "")
    && (Reports(fs, InvalidAmount) <==> d.amount <= 0.0)
    && (Reports(fs, MissingCurrency) <==> d.currency == "")
    && (Reports(fs, MissingType) <==> d.depositType == "")
    && (Reports(fs, UnknownType) <==>
          d.depositType != "" && d.depositType != "CASH_EQUIVALENT" && d.depositType != "BANK_GUARANTEE"
          && d.depositType != "INSURANCE" && d.depositType != "SURETY")
    && (Reports(fs, WrongCurrency) <==> rule.Some? && d.currency != "" && d.currency != rule.value.currency)
    && (Reports(fs, DisallowedType) <==>
          rule.Some? && rule.value.allowedTypes != [] && d.depositType != "" && d.depositType !in rule.value.allowedTypes)
    && (Reports(fs, CapExceeded) <==> rule.Some? && rent > 0.0 && d.amount > 0.0 && d.amount > rule.value.maxMonths * rent * 1.005)
  }

  /** The six warnings and the note. */
  ghost predicate WarningsExplained(fs: seq<Finding>, d: Instance, rule: Option<Rule>)
  {
    && (Reports(fs, MissingVersion) <==> d.version == "")
    && (Reports(fs, MissingCountry) <==> d.country == "")
    && (Reports(fs, UnknownJurisdiction) <==> d.country != "" && rule.None?)
    && (Reports(fs, UnexpectedStatutoryBasis) <==>
          rule.Some? && d.pledgeBasis.Some? && d.pledgeBasis.value != ""
          && forall b :: b in rule.value.bases ==> !Contains(d.pledgeBasis.value, b))
    && (Reports(fs, InterestRequired) <==>
          rule.Some? && rule.value.interestRequired && (d.trusteeship.None? || d.trusteeship.value.interestRate == 0.0))
    && (Reports(fs, MissingTrusteeship) <==> rule.Some? && d.depositType == "CASH_EQUIVALENT" && d.trusteeship.None?)
    && (Reports(fs, InsolvencyProtectionUnconfirmed) <==>
          rule.Some? && d.trusteeship.Some? && !d.trusteeship.value.insolvencyProtected)
  }

  /** How a finding is graded, and the statute that it quotes. */
  predicate Graded(f: Finding, rule: Option<Rule>)
  {
    && (f.severity == Note <==> f.code == UnknownJurisdiction)
    && (f.severity == Warning <==>
          || f.code == MissingVersion || f.code == MissingCountry || f.code == UnexpectedStatutoryBasis
          || f.code == InterestRequired || f.code == MissingTrusteeship || f.code == InsolvencyProtectionUnconfirmed)
    && (f.code == WrongCurrency || f.code == DisallowedType || f.code == CapExceeded || f.code == UnexpectedStatutoryBasis
        || f.code == InterestRequired || f.code == MissingTrusteeship || f.code == InsolvencyProtectionUnconfirmed
        ==> rule.Some? && rule.value.bases != [] && f.rule == rule.value.bases[0])
    && (f.code == MissingTenantFields || f.code == MissingLandlordName || f.code == InvalidAmount || f.code == MissingCurrency
        || f.code == MissingType || f.code == MissingVersion || f.code == MissingCountry || f.code == UnknownType
        || f.code == UnknownJurisdiction
        ==> f.rule == "")
  }

  lemma KnownTypes(t: string)
    ensures t in KNOWN_TYPES <==> t == "CASH_EQUIVALENT" || t == "BANK_GUARANTEE" || t == "INSURANCE" || t == "SURETY"
  {
    assert KNOWN_TYPES[0] == "CASH_EQUIVALENT" && KNOWN_TYPES[1] == "BANK_GUARANTEE";
    assert KNOWN_TYPES[2] == "INSURANCE" && KNOWN_TYPES[3] == "SURETY";
  }

  lemma ErrorsAreExplained(fs: seq<Finding>, d: Instance, rule: Option<Rule>, rent: real)
    requires rule.Some? ==> rule.value.maxMonths > 0.0 && rule.value.currency != ""
    requires forall c :: Reports(fs, c) <==> Due(d, rule, rent, c)
    ensures ErrorsExplained(fs, d, rule, rent)
  {
    KnownTypes(d.depositType);
  }

  lemma BasisExplained(basis: string, bases: seq<string>)
    ensures BasisMatches(basis, bases) <==> exists b :: b in bases && Contains(basis, b)
  {
    if b :| b in bases && Contains(basis, b) {
      var i :| 0 <= i < |bases| && bases[i] == b;
    }
    if BasisMatches(basis, bases) {
      var i :| 0 <= i < |bases| && Contains(basis, bases[i]);
      assert bases[i] in bases;
    }
  }

  lemma WarningsAreExplained(fs: seq<Finding>, d: Instance, rule: Option<Rule>, rent: real)
    requires rule.Some? ==> rule.value.bases != []
    requires forall c :: Reports(fs, c) <==> Due(d, rule, rent, c)
    ensures WarningsExplained(fs, d, rule)
  {
    if rule.Some? && d.pledgeBasis.Some? {
      BasisExplained(d.pledgeBasis.value, rule.value.bases);
    }
  }

  lemma FindingsAreGraded(fs: seq<Finding>, d: Instance, rule: Option<Rule>, rent: real)
    requires Covers(fs, d, rule, rent, 16) && (rule.Some? ==> rule.value.bases != [])
    ensures forall i :: 0 <= i < |fs| ==> Graded(fs[i], rule)
  {
    forall i | 0 <= i < |fs| ensures Graded(fs[i], rule) {
      assert Due(d, rule, rent, fs[i].code) && fs[i] == FindingFor(rule, fs[i].code);
    }
  }

  /** The statutory table: caps in months of rent, currencies, and where interest is due. */
  lemma TableByCountry(country: string)
    ensures RuleFor(country).Some? <==>
            country == "DE" || country == "CH" || country == "AT" || country == "BE" || country == "NL"
            || country == "NO" || country == "GB" || country == "FR" || country == "ES"
    ensures RuleFor(country).Some? ==>
              var r := RuleFor(country).value;
              && r.maxMonths == (if country == "NO" then 6.0 else if country == "GB" then 1.15
                                 else if country == "BE" || country == "NL" then 2.0
                                 else if country == "FR" || country == "ES" then 1.0 else 3.0)
              && r.currency == (if country == "CH" then "CHF" else if country == "NO" then "NOK"
                                else if country == "GB" then "GBP" else "EUR")
              && (r.interestRequired <==> country == "CH" || country == "NO")
              && r.allowedTypes == (if country == "DE" then ["CASH_EQUIVALENT", "BANK_GUARANTEE", "SURETY"]
                                    else if country == "NL" then ["CASH_EQUIVALENT"]
                                    else if country == "FR" then ["CASH_EQUIVALENT", "SURETY"] else [])
  {
  }

  /** The statutes that a pledge may name, the first of which findings quote. */
  lemma StatutesByCountry()
    ensures RuleFor("DE").value.bases == ["BGB \U{00A7} 551"] && RuleFor("CH").value.bases == ["OR Art. 257e"]
    ensures RuleFor("AT").value.bases == ["MRG \U{00A7} 16b", "ABGB \U{00A7} 1346"]
    ensures RuleFor("BE").value.bases == ["Woninghuurwet", "Code civil belge"] && RuleFor("NL").value.bases == ["BW Art. 7:261"]
    ensures RuleFor("NO").value.bases == ["Husleieloven \U{00A7} 3-5"]
    ensures RuleFor("GB").value.bases == ["Housing Act 2004", "Tenant Fees Act 2019"]
    ensures RuleFor("FR").value.bases == ["Loi ALUR", "Loi 89-462"] && RuleFor("ES").value.bases == ["LAU Art. 36"]
  {
  }

  /** The report lists exactly the due codes, each once, and is valid exactly for conformant deposits. */
  method Validate(d: Instance, rent: real) returns (valid: bool, findings: seq<Finding>)
    ensures valid <==> Conformant(d, rent)
    ensures ErrorsExplained(findings, d, RuleFor(d.country), rent) && WarningsExplained(findings, d, RuleFor(d.country))
    ensures forall i :: 0 <= i < |findings| ==> Graded(findings[i], RuleFor(d.country))
    ensures forall i, j :: 0 <= i < j < |findings| ==> findings[i].code != findings[j].code
  {
    var rule := RuleFor(d.country);
    var r := new Report();
    r.CheckRequired(d, rule, rent);
    r.CheckDepositType(d, rule, rent);
    r.CheckJurisdiction(d, rule, rent);
    UptoCovers(d, rule, rent, 16);
    VerdictOf(r.findings, d, rent);
    var errors := r.HasErrors();
    r.valid := !errors;
    valid, findings := r.valid, r.findings;
    Explains(findings, d, rule, rent);
  }

  lemma Explains(fs: seq<Finding>, d: Instance, rule: Option<Rule>, rent: real)
    requires rule == RuleFor(d.country) && Covers(fs, d, rule, rent, 16)
    ensures ErrorsExplained(fs, d, rule, rent) && WarningsExplained(fs, d, rule)
    ensures forall i :: 0 <= i < |fs| ==> Graded(fs[i], rule)
  {
    RulesAreReal(d.country);
    forall c ensures Reports(fs, c) <==> Due(d, rule, rent, c) {
      AllCodesCovered(fs, d, rule, rent, c);
    }
    ErrorsAreExplained(fs, d, rule, rent);
    WarningsAreExplained(fs, d, rule, rent);
    FindingsAreGraded(fs, d, rule, rent);
  }

  // ---------------------------------------------------------------- monotonicity

  lemma MulMonotone(k: real, a: real, b: real)
    requires k >= 0.0 && a <= b
    ensures k * a <= k * b
  {
  }

  /** The verdict survives lowering a positive amount. */
  lemma LowerAmountStaysConformant(d: Instance, rent: real, amount: real)
    requires Conformant(d, rent) && 0.0 < amount <= d.amount
    ensures Conformant(d.(amount := amount), rent)
  {
  }

  /** For a positive rent the verdict survives raising the rent. */
  lemma HigherRentStaysConformant(d: Instance, rent: real, higher: real)
    requires Conformant(d, rent) && 0.0 < rent <= higher
    ensures Conformant(d, higher)
  {
    RulesAreReal(d.country);
    if RuleFor(d.country).Some? {
      MulMonotone(RuleFor(d.country).value.maxMonths, rent, higher);
    }
  }

  lemma ScalingMeets(d: Instance, rule: Option<Rule>, rent: real, k: real)
    requires rent > 0.0 && k > 0.0
    ensures Meets(d.(amount := k * d.amount), rule, k * rent) <==> Meets(d, rule, rent)
  {
    assert k * rent > 0.0;
    SignKept(k, d.amount);
    if rule.Some? {
      CapScales(d.amount, rule.value.maxMonths, rent, k);
    }
  }

  /** For a positive rent only the ratio counts: scaling amount and rent alike leaves the verdict. */
  lemma ScalingKeepsVerdict(d: Instance, rent: real, k: real)
    requires rent > 0.0 && k > 0.0
    ensures Conformant(d.(amount := k * d.amount), k * rent) <==> Conformant(d, rent)
  {
    ScalingMeets(d, RuleFor(d.country), rent, k);
  }

  lemma SignKept(k: real, a: real)
    requires k > 0.0
    ensures k * a > 0.0 <==> a > 0.0
  {
  }

  lemma CapScales(a: real, m: real, rent: real, k: real)
    requires k > 0.0
    ensures k * a <= m * (k * rent) * 1.005 <==> a <= m * rent * 1.005
  {
    var cap := m * rent * 1.005;
    assert m * (k * rent) * 1.005 == k * cap;
    if a <= cap {
      MulMonotone(k, a, cap);
    } else {
      SignKept(k, a - cap);
      assert k * (a - cap) == k * a - k * cap;
    }
  }
}
