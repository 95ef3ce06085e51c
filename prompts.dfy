/** The prompt templates of `build_prompt` and the list of dataset types the
    form offers. Each template is filed under a dataset-type key; looking up a
    key that is not filed raises `ValueError`, modelled as `Err`. */
module Prompts {
  import opened Decimal
  import Seqs

  /** The five kinds of dataset a template exists for. */
  datatype DatasetType =
    | CustomerRecords
    | FinancialTransactions
    | TaxPayerRecords
    | HealthcarePatients
    | EcommerceOrders

  /** The `ValueError` raised for a key that has no template. */
  datatype PromptError = UnknownDatasetType(datasetType: string)

  datatype Result<T> = Ok(value: T) | Err(error: PromptError)

  /** The text the `ValueError` carries: the prefix and then the key, with
      nothing between or after them. */
  function Message(e: PromptError): (r: string)
    ensures |r| == |"Unknown dataset type: "| + |e.datasetType|
    ensures Seqs.OccursAt("Unknown dataset type: ", r, 0)
    ensures Seqs.OccursAt(e.datasetType, r, |r| - |e.datasetType|)
  {
    "Unknown dataset type: " + e.datasetType
  }

  /** The key under which the template of `t` is filed. */
  function Name(t: DatasetType): string {
    match t
    case CustomerRecords => "Customer Records"
    case FinancialTransactions => "Financial Transactions"
    case TaxPayerRecords => "Tax Payer Records"
    case HealthcarePatients => "Healthcare Patients"
    case EcommerceOrders => "E-commerce Orders"
  }

  /** `DATASET_TYPES`: the choices of the dataset-type drop-down, in order. */
  function DatasetTypes(): (r: seq<string>)
    ensures |r| == 5
    ensures forall i, j :: 0 <= i < j < |r| ==> r[i] != r[j]
    ensures forall t :: Name(t) in r
  {
    [
      "Customer Records",
      "Financial Transactions",
      "Tax Payer Records",
      "Healthcare Patients",
      "E-commerce Orders"
    ]
  }

  // ---------------------------------------------------------------------
  // Template text
  // ---------------------------------------------------------------------

  /** The parts of one template that differ between dataset types: what to
      generate, the instruction and field rules, the example array, and
      whether the last line repeats the size. */
  datatype Template = Template(subject: string, requirements: string, example: string, repeatsSize: bool)

  /** What the backend is asked to generate `size` of. */
  function Subject(t: DatasetType): string {
    match t
    case CustomerRecords => "customer records"
    case FinancialTransactions => "banking transactions"
    case TaxPayerRecords => "taxpayer records"
    case HealthcarePatients => "patient records"
    case EcommerceOrders => "e-commerce orders"
  }

  /** The output-format instruction and the field rules of each type. */
  function Requirements(t: DatasetType): string {
    match t
    case CustomerRecords =>
      @"**CRITICAL INSTRUCTION:** Return ONLY a valid JSON array. No explanations, no markdown formatting, no backticks, no additional text.
**REQUIRED FIELDS (each object must include):**
- customer_id: UUID format (e.g., ""123e4567-e89b-12d3-a456-426614174000"")
- full_name: string (first and last name)
- email: string (valid email format)
- phone: string (include country code, e.g., ""+1-555-123-4567"")
- country: string
- city: string
- postal_code: string
- signup_date: string (YYYY-MM-DD format, between 2020-01-01 and today)
**DATA RULES:**
- Use double quotes ("") for strings, not single quotes
- Include diverse, realistic values across different countries and cities
- Ensure all emails are properly formatted
"
    case FinancialTransactions =>
      @"**CRITICAL INSTRUCTION:** Return ONLY a valid JSON array. No explanations, no markdown formatting, no backticks, no additional text.
**REQUIRED FIELDS:**
- transaction_id: string (format: TXN- followed by random chars)
- account_id: string (format: ACC- followed by digits)
- transaction_date: string (YYYY-MM-DD, within last 30 days)
- amount: number (decimal with 2 places, $5-$500 for purchases, up to $5000 for transfers)
- currency: string (mostly ""USD"", occasional ""EUR"", ""GBP"")
- merchant_name: string
- merchant_category: string (e.g., ""Groceries"", ""Restaurant"", ""Retail"", ""Utilities"")
- transaction_type: string (""debit"" or ""credit"", ~60% debit, 40% credit)
- status: string (""completed"", ""pending"", or ""failed"", 95% completed)
"
    case TaxPayerRecords =>
      @"**CRITICAL INSTRUCTION:** Return ONLY a valid JSON array. No explanations, no markdown formatting, no backticks, no additional text.
**REQUIRED FIELDS:**
- taxpayer_id: string (format: TAX- followed by digits)
- full_name: string
- country: string
- annual_income: integer (should correlate with employment status)
- tax_paid: integer (roughly 15-30% of income)
- employment_status: string (""employed"", ""self-employed"", ""retired"", ""unemployed"")
- filing_status: string (""single"", ""married_filing_jointly"", ""head_of_household"")
- tax_year: integer (2023 or 2022)
"
    case HealthcarePatients =>
      @"**CRITICAL INSTRUCTION:** Return ONLY a valid JSON array. No explanations, no markdown formatting, no backticks, no additional text.
**REQUIRED FIELDS:**
- patient_id: string (format: PAT- followed by digits)
- full_name: string
- age: integer (0-90, realistic distribution)
- gender: string (""Male"", ""Female"", or ""Other"")
- blood_type: string (A+, A-, B+, B-, AB+, AB-, O+, O-)
- diagnosis: string (common conditions: hypertension, diabetes, asthma, etc.)
- admission_date: string (YYYY-MM-DD, within last 5 years)
- country: string
"
    case EcommerceOrders =>
      @"**CRITICAL INSTRUCTION:** Return ONLY a valid JSON array. No explanations, no markdown formatting, no backticks, no additional text.
**REQUIRED FIELDS:**
- order_id: string (format: ORD- followed by digits)
- customer_id: string (format: CUST- followed by digits)
- order_date: string (YYYY-MM-DD, within last 90 days)
- product_name: string
- category: string (Electronics, Clothing, Books, Home & Garden, Sports, Beauty)
- quantity: integer (1-5)
- price: number (decimal with 2 places, realistic for category)
- payment_method: string (""credit_card"", ""paypal"", ""apple_pay"", ""google_pay"")
- shipping_country: string
"
  }

  /** The one-record example array each template shows the backend
      (`customer_example`, `transaction_example`, `tax_example`,
      `healthcare_example` and `ecommerce_example`). */
  function Example(t: DatasetType): string {
    match t
    case CustomerRecords =>
      @"[
  {
    ""customer_id"": ""123e4567-e89b-12d3-a456-426614174000"",
    ""full_name"": ""John Smith"",
    ""email"": ""john.smith@email.com"",
    ""phone"": ""+1-555-123-4567"",
    ""country"": ""USA"",
    ""city"": ""New York"",
    ""postal_code"": ""10001"",
    ""signup_date"": ""2023-05-15""
  }
]"
    case FinancialTransactions =>
      @"[
  {
    ""transaction_id"": ""TXN-8f3a2b1c"",
    ""account_id"": ""ACC-987654"",
    ""transaction_date"": ""2024-02-15"",
    ""amount"": 47.85,
    ""currency"": ""USD"",
    ""merchant_name"": ""Walmart"",
    ""merchant_category"": ""Groceries"",
    ""transaction_type"": ""debit"",
    ""status"": ""completed""
  }
]"
    case TaxPayerRecords =>
      @"[
  {
    ""taxpayer_id"": ""TAX-123456"",
    ""full_name"": ""Jane Doe"",
    ""country"": ""USA"",
    ""annual_income"": 75000,
    ""tax_paid"": 15750,
    ""employment_status"": ""employed"",
    ""filing_status"": ""single"",
    ""tax_year"": 2023
  }
]"
    case HealthcarePatients =>
      @"[
  {
    ""patient_id"": ""PAT-789012"",
    ""full_name"": ""Robert Johnson"",
    ""age"": 58,
    ""gender"": ""Male"",
    ""blood_type"": ""O+"",
    ""diagnosis"": ""Hypertension"",
    ""admission_date"": ""2023-11-10"",
    ""country"": ""Canada""
  }
]"
    case EcommerceOrders =>
      @"[
  {
    ""order_id"": ""ORD-543210"",
    ""customer_id"": ""CUST-98765"",
    ""order_date"": ""2024-01-20"",
    ""product_name"": ""Wireless Headphones"",
    ""category"": ""Electronics"",
    ""quantity"": 1,
    ""price"": 89.99,
    ""payment_method"": ""credit_card"",
    ""shipping_country"": ""USA""
  }
]"
  }

  /** The template filed under the key of `t`; only the customer template
      repeats the size in its closing line. */
  function TemplateOf(t: DatasetType): Template {
    Template(Subject(t), Requirements(t), Example(t), t == CustomerRecords)
  }

  /** What every template starts with, just before the requested size. */
  const Opening: string := "\nGenerate "

  /** The heading that introduces the example in every template. */
  const ExampleHeading: string := "**EXAMPLE OUTPUT:**\n"

  /** The end of the closing line when it repeats the size. */
  const ObjectsTail: string := " objects:\n"

  /** The rest of the first line, after the size. */
  function Headline(subject: string): string {
    " realistic " + subject + " as a JSON array.\n"
  }

  /** The closing line after the example, for the size text `s`. */
  function Closing(tpl: Template, s: string): string {
    if tpl.repeatsSize then "\nReturn ONLY the JSON array with " + s + ObjectsTail
    else "\nReturn ONLY the JSON array:\n"
  }

  /** `p` opens with "\nGenerate ", followed at once by the decimal size `s`
      and then by " realistic " and `subject`. */
  predicate OpensWithSize(p: string, s: string, subject: string) {
    && Seqs.OccursAt(Opening, p, 0)
    && Seqs.OccursAt(s, p, |Opening|)
    && Seqs.OccursAt(" realistic " + subject, p, |Opening| + |s|)
  }

  /** Where the requirements start in a template rendered with the size
      text `s`: right after the first line. */
  function RequirementsOffset(tpl: Template, s: string): nat {
    |Opening| + |s| + |Headline(tpl.subject)|
  }

  /** Where the example starts in a template rendered with the size text `s`. */
  function ExampleOffset(tpl: Template, s: string): nat {
    RequirementsOffset(tpl, s) + |tpl.requirements| + |ExampleHeading|
  }

  /** `x` stands at position `k` of `p`, right after the example heading. */
  predicate UnderHeading(p: string, x: string, k: int) {
    && Seqs.OccursAt(ExampleHeading, p, k - |ExampleHeading|)
    && Seqs.OccursAt(x, p, k)
  }

  /** `p` ends with the decimal `s` followed by " objects:\n". */
  predicate EndsWithCount(p: string, s: string) {
    Seqs.OccursAt(s + ObjectsTail, p, |p| - |s| - |ObjectsTail|)
  }

  /** The f-string of a template with `size` spliced in. It names the size
      right after "Generate ", starts the requirements where the first line
      ends, shows the example under the example heading where the
      requirements end, and, when the template repeats the size, ends with
      "<size> objects:\n". */
  function Render(tpl: Template, size: int): (r: string)
    ensures OpensWithSize(r, IntToString(size), tpl.subject)
    ensures Seqs.OccursAt(tpl.requirements, r, RequirementsOffset(tpl, IntToString(size)))
    ensures UnderHeading(r, tpl.example, ExampleOffset(tpl, IntToString(size)))
    ensures tpl.repeatsSize ==> EndsWithCount(r, IntToString(size))
  {
    var s := IntToString(size);
    var p := Opening + s + Headline(tpl.subject) + tpl.requirements + ExampleHeading + tpl.example + Closing(tpl, s);
    OpeningLayout(tpl, s, p);
    RequirementsLayout(tpl, s, p);
    ExampleLayout(tpl, s, p);
    ClosingLayout(tpl, s, p);
    p
  }

  /** The template of `t` for `size`, as `build_prompt` renders it: the size
      and the subject of `t` open it, the requirements of `t` follow the
      first line, the example of `t` stands under the example heading, and
      the customer template repeats the size at its end. */
  function Prompt(t: DatasetType, size: int): (r: string)
    ensures OpensWithSize(r, IntToString(size), Subject(t))
    ensures Seqs.OccursAt(Requirements(t), r, RequirementsOffset(TemplateOf(t), IntToString(size)))
    ensures UnderHeading(r, Example(t), ExampleOffset(TemplateOf(t), IntToString(size)))
    ensures t == CustomerRecords ==> EndsWithCount(r, IntToString(size))
  {
    Render(TemplateOf(t), size)
  }

  // ---------------------------------------------------------------------
  // Where the size and the example stand, for any template
  // ---------------------------------------------------------------------

  /** The opening of a text survives appending more text. */
  lemma OpeningExtends(p: string, q: string, s: string, subject: string)
    requires OpensWithSize(p, s, subject)
    ensures OpensWithSize(p + q, s, subject)
  {
    Seqs.OccursInLonger(Opening, p, q, 0);
    Seqs.OccursInLonger(s, p, q, |Opening|);
    Seqs.OccursInLonger(" realistic " + subject, p, q, |Opening| + |s|);
  }

  /** The first line alone already opens with the size and the subject. */
  lemma FirstLineLayout(s: string, subject: string)
    ensures OpensWithSize(Opening + s + Headline(subject), s, subject)
  {
    var a1 := Opening + s;
    var h := Headline(subject);
    var r := " realistic " + subject;
    Seqs.SliceLeft(a1, h, 0, |Opening|);
    Seqs.SliceLeft(Opening, s, 0, |Opening|);
    Seqs.SliceLeft(a1, h, |Opening|, |a1|);
    Seqs.SliceRight(Opening, s, |Opening|, |a1|);
    Seqs.SliceRight(a1, h, |a1|, |a1| + |r|);
    Seqs.SliceLeft(r, " as a JSON array.\n", 0, |r|);
  }

  lemma OpeningLayout(tpl: Template, s: string, p: string)
    requires p == Opening + s + Headline(tpl.subject) + tpl.requirements + ExampleHeading + tpl.example + Closing(tpl, s)
    ensures OpensWithSize(p, s, tpl.subject)
  {
    var a3 := Opening + s + Headline(tpl.subject);
    FirstLineLayout(s, tpl.subject);
    OpeningExtends(a3, tpl.requirements, s, tpl.subject);
    OpeningExtends(a3 + tpl.requirements, ExampleHeading, s, tpl.subject);
    OpeningExtends(a3 + tpl.requirements + ExampleHeading, tpl.example, s, tpl.subject);
    OpeningExtends(a3 + tpl.requirements + ExampleHeading + tpl.example, Closing(tpl, s), s, tpl.subject);
  }

  lemma RequirementsLayout(tpl: Template, s: string, p: string)
    requires p == Opening + s + Headline(tpl.subject) + tpl.requirements + ExampleHeading + tpl.example + Closing(tpl, s)
    ensures Seqs.OccursAt(tpl.requirements, p, RequirementsOffset(tpl, s))
  {
    var a3 := Opening + s + Headline(tpl.subject);
    var a4 := a3 + tpl.requirements;
    Seqs.SliceRight(a3, tpl.requirements, |a3|, |a4|);
    Seqs.OccursInLonger(tpl.requirements, a4, ExampleHeading, |a3|);
    Seqs.OccursInLonger(tpl.requirements, a4 + ExampleHeading, tpl.example, |a3|);
    Seqs.OccursInLonger(tpl.requirements, a4 + ExampleHeading + tpl.example, Closing(tpl, s), |a3|);
  }

  lemma ExampleLayout(tpl: Template, s: string, p: string)
    requires p == Opening + s + Headline(tpl.subject) + tpl.requirements + ExampleHeading + tpl.example + Closing(tpl, s)
    ensures UnderHeading(p, tpl.example, ExampleOffset(tpl, s))
  {
  }

  lemma ClosingLayout(tpl: Template, s: string, p: string)
    requires p == Opening + s + Headline(tpl.subject) + tpl.requirements + ExampleHeading + tpl.example + Closing(tpl, s)
    ensures tpl.repeatsSize ==> EndsWithCount(p, s)
  {
    if tpl.repeatsSize {
      // Spelling out the slices keeps the proof small.
      var lead := "\nReturn ONLY the JSON array with ";
      var a6 := Opening + s + Headline(tpl.subject) + tpl.requirements + ExampleHeading + tpl.example;
      Seqs.AppendAssoc(a6, lead + s, ObjectsTail);
      Seqs.AppendAssoc(a6, lead, s);
      Seqs.AppendAssoc(a6 + lead, s, ObjectsTail);
      var b := a6 + lead;
      assert p == b + (s + ObjectsTail);
      Seqs.SliceRight(b, s + ObjectsTail, |b|, |b| + |s| + |ObjectsTail|);
    }
  }

  /** Templates whose subjects start differently render differently. */
  lemma RenderSeparatesSubjects(a: Template, b: Template, size: int)
    requires a.subject != [] && b.subject != [] && a.subject[0] != b.subject[0]
    ensures Render(a, size) != Render(b, size)
  {
    var k := |Opening| + |IntToString(size)| + |" realistic "|;
    assert Render(a, size)[k] == Headline(a.subject)[|" realistic "|] == a.subject[0];
    assert Render(b, size)[k] == Headline(b.subject)[|" realistic "|] == b.subject[0];
  }

  // ---------------------------------------------------------------------
  // The five templates
  // ---------------------------------------------------------------------

  /** The five subjects start with five different letters. */
  lemma SubjectsDistinct(t: DatasetType, u: DatasetType)
    requires t != u
    ensures Subject(t) != [] && Subject(u) != [] && Subject(t)[0] != Subject(u)[0]
  {
  }

  /** Different dataset types never share a prompt. */
  lemma PromptsDistinct(t: DatasetType, u: DatasetType, size: int)
    requires t != u
    ensures Prompt(t, size) != Prompt(u, size)
  {
    SubjectsDistinct(t, u);
    RenderSeparatesSubjects(TemplateOf(t), TemplateOf(u), size);
  }

  // ---------------------------------------------------------------------
  // build_prompt
  // ---------------------------------------------------------------------

  /** The `templates` dictionary: which key files which template. The model
      files the dataset type and renders its text after the lookup, which
      gives the same string as rendering all five and picking one for every
      size Python can render. */
  function Templates(): (r: map<string, DatasetType>)
    ensures forall t :: Name(t) in r && r[Name(t)] == t
    ensures forall k :: k in r ==> Name(r[k]) == k
  {
    map[
      "Customer Records" := CustomerRecords,
      "Financial Transactions" := FinancialTransactions,
      "Tax Payer Records" := TaxPayerRecords,
      "Healthcare Patients" := HealthcarePatients,
      "E-commerce Orders" := EcommerceOrders
    ]
  }

  /** The key check and lookup of `build_prompt`: a key is accepted exactly
      when the form offers it, and then it selects the type it names. */
  function TemplateFor(datasetType: string): (r: Result<DatasetType>)
    ensures r.Err? <==> datasetType !in DatasetTypes()
    ensures r.Err? ==> r.error == UnknownDatasetType(datasetType)
    ensures forall t :: r == Ok(t) <==> Name(t) == datasetType
  {
    var templates := Templates();
    if datasetType !in templates then Err(UnknownDatasetType(datasetType))
    else Ok(templates[datasetType])
  }

  /** `build_prompt(dataset_type, size)`. */
  function BuildPrompt(datasetType: string, size: int): (r: Result<string>)
    ensures r.Err? <==> datasetType !in DatasetTypes()
    ensures r.Err? ==> r.error == UnknownDatasetType(datasetType)
    ensures r.Err? ==> Message(r.error) == "Unknown dataset type: " + datasetType
    ensures r.Ok? ==> exists t :: Name(t) == datasetType && r.value == Prompt(t, size)
  {
    match TemplateFor(datasetType)
    case Err(e) => Err(e)
    case Ok(t) => Ok(Prompt(t, size))
  }

  /** Each key returns the template belonging to that key. */
  lemma BuildPromptSelects(t: DatasetType, size: int)
    ensures BuildPrompt(Name(t), size) == Ok(Prompt(t, size))
  {
  }

  /** The drop-down offers exactly the keys of the templates dictionary, and
      each entry names the type filed under it. */
  lemma DatasetTypesMatchTemplates()
    ensures forall s :: s in DatasetTypes() <==> s in Templates()
    ensures forall i :: 0 <= i < |DatasetTypes()| ==> Name(Templates()[DatasetTypes()[i]]) == DatasetTypes()[i]
  {
  }
}
