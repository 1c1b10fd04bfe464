/**
  The knowledge store behind the lookup Lambda: three record categories, the
  record shape of each, and the immutable store of three id-to-record maps.
  JavaScript `number` fields are modelled as `real`; optional fields as `Option`.
 */
module McpData {
  import opened Wrappers

  /** A customer's plan, keyed by customer id. */
  datatype CustomerPlanInfo = CustomerPlanInfo(
    name: string,
    planName: string,
    dataAllowanceMB: Option<real>,
    dataUsedMB: Option<real>,
    nextBillingDate: Option<string>,
    loyaltyTier: Option<string>,
    balanceNZD: Option<real>,
    lastTopUpDate: Option<string>,
    bonusDataMB: Option<real>,
    broadbandType: Option<string>,
    speedTier: Option<string>,
    contractEndDate: Option<string>,
    currentIssues: Option<seq<string>>,
    accountManager: Option<string>,
    numberOfLines: Option<real>,
    monthlySpendNZD: Option<real>)

  /** A product in the catalogue, keyed by product id. */
  datatype ProductInfo = ProductInfo(
    productName: string,
    category: string,
    priceNZD: real,
    priceFrequency: string,
    description: string,
    features: Option<seq<string>>,
    availability: Option<string>,
    coverageDetails: Option<seq<string>>,
    includedDestinations: Option<seq<string>>)

  datatype CommonIssue = CommonIssue(issue: string, solution: string)

  /** A support article, keyed by article id. */
  datatype KnowledgeBaseArticle = KnowledgeBaseArticle(
    title: string,
    category: string,
    steps: Option<seq<string>>,
    commonIssues: Option<seq<CommonIssue>>,
    lastUpdated: string)

  /** Any record the store can hand back; the body of a 200 response. */
  datatype Record =
    | CustomerPlan(plan: CustomerPlanInfo)
    | Product(product: ProductInfo)
    | Article(article: KnowledgeBaseArticle)

  /** The preloaded store. It is a value: the handler can only read it. */
  datatype Store = Store(
    customerPlanInfo: map<string, CustomerPlanInfo>,
    productInfo: map<string, ProductInfo>,
    knowledgeBase: map<string, KnowledgeBaseArticle>)

  /** The three record categories a request may name. */
  datatype Category = CustomerPlans | Products | KnowledgeBase

  /** The `dataType` tag that selects a category. */
  function Tag(c: Category): string
  {
    match c
    case CustomerPlans => "customerPlanInfo"
    case Products => "productInfo"
    case KnowledgeBase => "knowledgeBase"
  }

  /** The name of the event field that carries the id for a category. */
  function IdField(c: Category): string
  {
    match c
    case CustomerPlans => "customerId"
    case Products => "productId"
    case KnowledgeBase => "articleId"
  }

  /** The ids one category's map holds. */
  function Keys(store: Store, c: Category): set<string>
  {
    match c
    case CustomerPlans => store.customerPlanInfo.Keys
    case Products => store.productInfo.Keys
    case KnowledgeBase => store.knowledgeBase.Keys
  }

  /** Two stores hold the same map for category `c` (they may differ elsewhere). */
  predicate SameSection(s1: Store, s2: Store, c: Category)
  {
    match c
    case CustomerPlans => s1.customerPlanInfo == s2.customerPlanInfo
    case Products => s1.productInfo == s2.productInfo
    case KnowledgeBase => s1.knowledgeBase == s2.knowledgeBase
  }

  /** Indexes the map of category `c` with `key`, and nothing else. */
  function Lookup(store: Store, c: Category, key: string): (r: Option<Record>)
    ensures r.Some? <==> key in Keys(store, c)
    ensures r.Some? && c == CustomerPlans ==> r.value == CustomerPlan(store.customerPlanInfo[key])
    ensures r.Some? && c == Products ==> r.value == Product(store.productInfo[key])
    ensures r.Some? && c == KnowledgeBase ==> r.value == Article(store.knowledgeBase[key])
  {
    match c
    case CustomerPlans =>
      if key in store.customerPlanInfo then Some(CustomerPlan(store.customerPlanInfo[key])) else None
    case Products =>
      if key in store.productInfo then Some(Product(store.productInfo[key])) else None
    case KnowledgeBase =>
      if key in store.knowledgeBase then Some(Article(store.knowledgeBase[key])) else None
  }

  /** Distinct categories have distinct tags and distinct id fields; the tags
      already differ in their first character. */
  lemma TagAndFieldInjective(c1: Category, c2: Category)
    ensures Tag(c1) == Tag(c2) ==> c1 == c2
    ensures IdField(c1) == IdField(c2) ==> c1 == c2
    ensures c1 != c2 ==> Tag(c1)[0] != Tag(c2)[0]
  {
  }

  /** A lookup depends only on the map of the category it names. */
  lemma LookupReadsOnlyItsSection(s1: Store, s2: Store, c: Category, key: string)
    requires SameSection(s1, s2, c)
    ensures Lookup(s1, c, key) == Lookup(s2, c, key)
  {
  }
}
