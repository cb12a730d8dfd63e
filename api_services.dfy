/**
 * The rule-based parts of `services/api.ts` that compute values and change
 * nothing: the scheme recommendation rule, the profile a registration
 * builds, and the city and profession tables with their lookups.
 */
module SchemesService {
  import opened Types
  import opened Strings

  const RetirementPlan: seq<SchemeRecommendation> := [
    SchemeRecommendation("NPS", "Excellent for long-term retirement planning with tax benefits."),
    SchemeRecommendation("PPF", "Guaranteed returns and tax-free maturity, good for a secure retirement corpus."),
    SchemeRecommendation("Senior Citizen Savings Scheme (SCSS)", "High interest and regular income post-retirement (if applicable later).")]

  const TaxPlan: seq<SchemeRecommendation> := [
    SchemeRecommendation("PPF", "E-E-E (Exempt-Exempt-Exempt) status for tax savings."),
    SchemeRecommendation("NSC", "Tax deduction under Section 80C."),
    SchemeRecommendation("ELSS (Equity Linked Savings Scheme)", "Tax savings with equity market exposure (higher risk, higher potential return).")]

  const DefaultPlan: seq<SchemeRecommendation> := [
    SchemeRecommendation("PPF", "A versatile scheme for various goals due to its safety and tax benefits."),
    SchemeRecommendation("NSC", "Good for shorter-term goals with fixed returns.")]

  predicate MentionsRetirement(goal: string)
  {
    Includes(ToLower(goal), "retirement")
  }

  predicate MentionsTax(goal: string)
  {
    Includes(ToLower(goal), "tax")
  }

  /**
   * `getRecommendedSchemes`: a goal mentioning retirement (in any case)
   * gets the retirement plan, even when it also mentions tax; otherwise a
   * goal mentioning tax gets the tax plan; any other goal the default.
   */
  function GetRecommendedSchemes(profile: UserProfile): (recs: seq<SchemeRecommendation>)
    ensures MentionsRetirement(profile.financialGoal) ==> recs == RetirementPlan
    ensures !MentionsRetirement(profile.financialGoal) && MentionsTax(profile.financialGoal) ==> recs == TaxPlan
    ensures !MentionsRetirement(profile.financialGoal) && !MentionsTax(profile.financialGoal) ==> recs == DefaultPlan
  {
    if MentionsRetirement(profile.financialGoal) then RetirementPlan
    else if MentionsTax(profile.financialGoal) then TaxPlan
    else DefaultPlan
  }

  /** Every outcome recommends PPF and contains two or three schemes. */
  lemma AlwaysRecommendsPpf(profile: UserProfile)
    ensures 2 <= |GetRecommendedSchemes(profile)| <= 3
    ensures exists k :: 0 <= k < |GetRecommendedSchemes(profile)| && GetRecommendedSchemes(profile)[k].Scheme == "PPF"
  {
    var recs := GetRecommendedSchemes(profile);
    if recs == RetirementPlan {
      assert recs[1].Scheme == "PPF";
    } else {
      assert recs[0].Scheme == "PPF";
    }
  }

  /** The rule depends only on the goal up to letter case. */
  lemma RecommendationIgnoresCase(p: UserProfile, q: UserProfile)
    requires ToLower(p.financialGoal) == ToLower(q.financialGoal)
    ensures GetRecommendedSchemes(p) == GetRecommendedSchemes(q)
  {
  }

  /** Lower-casing the goal first gives the same recommendation. */
  lemma LowerCasedGoalSameRecommendation(p: UserProfile)
    ensures GetRecommendedSchemes(p.(financialGoal := ToLower(p.financialGoal))) == GetRecommendedSchemes(p)
  {
    ToLowerIdempotent(p.financialGoal);
  }

  /** A goal "Retirement and Tax" is recognised as a retirement goal although it also mentions tax. */
  lemma RetirementCheckedBeforeTax(p: UserProfile)
    requires p.financialGoal == "Retirement and Tax"
    ensures GetRecommendedSchemes(p) == RetirementPlan
  {
    var lower := ToLower(p.financialGoal);
    assert lower[0..10] == "retirement";
    IncludesAt(lower, "retirement", 0);
  }
}

module AuthService {
  import opened Wrappers
  import opened Types

  /** What the sign-up form submits: the profile's own fields and a password. */
  datatype Registration = Registration(
    name: string,
    age: int,
    income: real,
    financialGoal: string,
    profession: string,
    city: string,
    email: string,
    password: string)

  const NewbieBadge := "Newbie Navigator"
  const FirstQuestId := "business-quest-1"

  /** The game progress of a new account. */
  const InitialProgress := GameProgress(1, 0, 0, [FirstQuestId], [], None, None)

  /**
   * The profile `register` builds: every submitted field except the
   * password, the id it is given (the current time in the source), one
   * badge, level 1 and the initial game progress.
   */
  function NewUser(data: Registration, id: string): (u: UserProfile)
    ensures u.id == id
    ensures u.badges == [NewbieBadge] && u.level == 1
    ensures u.gameProgress == Some(InitialProgress)
    ensures u.gameProgress.value.xp == 0 && u.gameProgress.value.coins == 0
    ensures u.gameProgress.value.unlockedQuests == [FirstQuestId] && u.gameProgress.value.completedLevels == []
  {
    UserProfile(id, data.name, data.age, data.income, data.financialGoal, [NewbieBadge], 1,
                data.profession, data.city, data.email, Some(InitialProgress))
  }

  /** The submitted fields a profile carries. */
  function SubmittedFields(u: UserProfile, password: string): Registration
  {
    Registration(u.name, u.age, u.income, u.financialGoal, u.profession, u.city, u.email, password)
  }

  /**
   * Nothing submitted is lost except the password, which the profile does
   * not hold: together with it, the profile gives back the registration.
   */
  lemma NewUserKeepsSubmittedFields(data: Registration, id: string)
    ensures SubmittedFields(NewUser(data, id), data.password) == data
  {
  }

  /** Two registrations that differ only in the password build the same profile. */
  lemma NewUserIndependentOfPassword(data: Registration, password: string, id: string)
    ensures NewUser(data.(password := password), id) == NewUser(data, id)
  {
  }
}

module CityService {
  import opened Wrappers
  import opened Types

  const MockCityCostData: seq<CityCostData> := [
    CityCostData("Mumbai", Tier1, 25000.0, 8000.0, 3000.0, 7000.0, SalaryRange(20000.0, 40000.0)),
    CityCostData("Bengaluru", Tier1, 20000.0, 7000.0, 2500.0, 6000.0, SalaryRange(25000.0, 50000.0)),
    CityCostData("Delhi", Tier1, 22000.0, 7500.0, 2800.0, 6500.0, SalaryRange(20000.0, 45000.0)),
    CityCostData("Pune", Tier2, 12000.0, 5000.0, 1800.0, 4000.0, SalaryRange(15000.0, 30000.0)),
    CityCostData("Jaipur", Tier2, 8000.0, 4000.0, 1200.0, 3000.0, SalaryRange(10000.0, 25000.0))]

  const MockProfessionSalaries: seq<ProfessionSalary> := [
    ProfessionSalary("Software Engineer", 60000.0),
    ProfessionSalary("Marketing Specialist", 40000.0),
    ProfessionSalary("Graphic Designer", 35000.0),
    ProfessionSalary("Teacher", 30000.0),
    ProfessionSalary("Freelancer", 45000.0),
    ProfessionSalary("Retail Associate", 18000.0)]

  /** `find(data => data.city === city)`: the first record of the city, if any. */
  function FindCity(table: seq<CityCostData>, city: string): (r: Option<CityCostData>)
    ensures r.None? <==> forall i :: 0 <= i < |table| ==> table[i].city != city
    ensures r.Some? ==> exists i :: 0 <= i < |table| && table[i] == r.value && table[i].city == city &&
                                    forall j :: 0 <= j < i ==> table[j].city != city
  {
    if table == [] then None
    else if table[0].city == city then Some(table[0])
    else
      var r := FindCity(table[1..], city);
      if r.Some? then
        ghost var i :| 0 <= i < |table[1..]| && table[1..][i] == r.value && table[1..][i].city == city &&
                       forall j :: 0 <= j < i ==> table[1..][j].city != city;
        assert table[i + 1] == r.value;
        r
      else r
  }

  /** `map(data => data.city)`: the cities in table order. */
  function Cities(table: seq<CityCostData>): (names: seq<string>)
    ensures |names| == |table|
    ensures forall i :: 0 <= i < |table| ==> names[i] == table[i].city
  {
    if table == [] then [] else [table[0].city] + Cities(table[1..])
  }

  /** A city is found exactly when it is listed. */
  lemma FoundIffListed(table: seq<CityCostData>, city: string)
    ensures FindCity(table, city).Some? <==> city in Cities(table)
  {
    var names := Cities(table);
    if city in names {
      var i :| 0 <= i < |names| && names[i] == city;
      assert table[i].city == city;
    }
  }

  function GetCityCostData(city: string): Option<CityCostData>
  {
    FindCity(MockCityCostData, city)
  }

  function GetAllCities(): seq<string>
  {
    Cities(MockCityCostData)
  }

  /** The mock table lists five cities, each once, and lookups find the first listed one. */
  lemma MockCities()
    ensures GetAllCities() == ["Mumbai", "Bengaluru", "Delhi", "Pune", "Jaipur"]
    ensures GetCityCostData("Pune") == Some(MockCityCostData[3])
    ensures GetCityCostData("Chennai").None?
  {
    assert GetAllCities() == ["Mumbai", "Bengaluru", "Delhi", "Pune", "Jaipur"];
    FoundIffListed(MockCityCostData, "Chennai");
  }

  /** `find(data => data.profession === profession)`. */
  function FindProfession(table: seq<ProfessionSalary>, profession: string): (r: Option<ProfessionSalary>)
    ensures r.None? <==> forall i :: 0 <= i < |table| ==> table[i].profession != profession
    ensures r.Some? ==> exists i :: 0 <= i < |table| && table[i] == r.value && table[i].profession == profession &&
                                    forall j :: 0 <= j < i ==> table[j].profession != profession
  {
    if table == [] then None
    else if table[0].profession == profession then Some(table[0])
    else
      var r := FindProfession(table[1..], profession);
      if r.Some? then
        ghost var i :| 0 <= i < |table[1..]| && table[1..][i] == r.value && table[1..][i].profession == profession &&
                       forall j :: 0 <= j < i ==> table[1..][j].profession != profession;
        assert table[i + 1] == r.value;
        r
      else r
  }

  /** `map(data => data.profession)`. */
  function Professions(table: seq<ProfessionSalary>): (names: seq<string>)
    ensures |names| == |table|
    ensures forall i :: 0 <= i < |table| ==> names[i] == table[i].profession
  {
    if table == [] then [] else [table[0].profession] + Professions(table[1..])
  }

  lemma ProfessionFoundIffListed(table: seq<ProfessionSalary>, profession: string)
    ensures FindProfession(table, profession).Some? <==> profession in Professions(table)
  {
    var names := Professions(table);
    if profession in names {
      var i :| 0 <= i < |names| && names[i] == profession;
      assert table[i].profession == profession;
    }
  }

  function GetProfessionSalary(profession: string): Option<ProfessionSalary>
  {
    FindProfession(MockProfessionSalaries, profession)
  }

  function GetAllProfessions(): seq<string>
  {
    Professions(MockProfessionSalaries)
  }
}
