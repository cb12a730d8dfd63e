/**
 * The records of the application's type declarations (`types.ts`), as
 * Dafny values. Money is `real`, counts are `int`, optional fields are
 * `Option`s. A TypeScript object map `{ [questId]: string[] }` becomes an
 * association list kept in insertion order, which is the order in which
 * JavaScript enumerates such an object.
 */
module Types {
  import opened Wrappers

  datatype EntryType = Income | Expense

  datatype BudgetEntry = BudgetEntry(id: string, category: string, amount: real, kind: EntryType, date: string)

  datatype Scheme = Scheme(name: string, interestRate: real, lockInPeriod: string, description: string, eligibility: seq<string>)

  datatype SchemeRecommendation = SchemeRecommendation(Scheme: string, Reason: string)

  /** The loan form of the Debt Trap Decoder; `monthlyInterestRate` is a percentage (2 means 2%). */
  datatype LoanDetails = LoanDetails(principal: real, monthlyInterestRate: real, tenureMonths: int)

  /** One month of an amortization schedule. */
  datatype LoanAmortization = LoanAmortization(
    month: int,
    beginningBalance: real,
    payment: real,
    interestPaid: real,
    principalPaid: real,
    endingBalance: real)

  datatype Tier = Tier1 | Tier2

  datatype SalaryRange = SalaryRange(min: real, max: real)

  datatype CityCostData = CityCostData(
    city: string,
    tier: Tier,
    averageRent: real,
    foodCost: real,
    transportCost: real,
    miscellaneous: real,
    starterSalaryRange: SalaryRange)

  datatype ProfessionSalary = ProfessionSalary(profession: string, averageMonthlyIncome: real)

  /** One key of `completedLevels`: the ids of the levels completed in one quest. */
  datatype CompletedEntry = CompletedEntry(questId: string, levelIds: seq<string>)

  datatype GameProgress = GameProgress(
    level: int,
    xp: int,
    coins: int,
    unlockedQuests: seq<string>,
    completedLevels: seq<CompletedEntry>,
    currentQuestId: Option<string>,
    currentLevelId: Option<string>)

  datatype QuestLevel = QuestLevel(
    id: string,
    name: string,
    description: string,
    taskPrompt: string,
    xpReward: int,
    coinReward: int,
    badgeReward: Option<string>,
    expectedAnswerKeywords: Option<seq<string>>)

  datatype Quest = Quest(id: string, name: string, description: string, levels: seq<QuestLevel>)

  datatype UserProfile = UserProfile(
    id: string,
    name: string,
    age: int,
    income: real,
    financialGoal: string,
    badges: seq<string>,
    level: int,
    profession: string,
    city: string,
    email: string,
    gameProgress: Option<GameProgress>)
}
