/** The registration draft the onboarding form collects: ten text fields,
    all empty when the page loads and again after a submission is reset. */
module Registration {

  datatype FormData = FormData(
    accountType: string,
    fullName: string,
    email: string,
    phone: string,
    industry: string,
    jobTitle: string,
    bio: string,
    location: string,
    hourlyRate: string,
    additionalInfo: string)

  /** The keys of `FormData`, as `updateFormData` and the error record name them. */
  datatype Field =
    | AccountType | FullName | Email | Phone | Industry
    | JobTitle | Bio | Location | HourlyRate | AdditionalInfo

  /** The draft on page load and after the post-submit reset: every field `""`. */
  const EmptyForm: FormData := FormData("", "", "", "", "", "", "", "", "", "")

  function Get(d: FormData, f: Field): string
  {
    match f
    case AccountType => d.accountType
    case FullName => d.fullName
    case Email => d.email
    case Phone => d.phone
    case Industry => d.industry
    case JobTitle => d.jobTitle
    case Bio => d.bio
    case Location => d.location
    case HourlyRate => d.hourlyRate
    case AdditionalInfo => d.additionalInfo
  }

  /** `{ ...d, [f]: v }`: field `f` becomes `v` and every other field keeps its value. */
  function With(d: FormData, f: Field, v: string): (r: FormData)
    ensures Get(r, f) == v
    ensures forall g :: g != f ==> Get(r, g) == Get(d, g)
  {
    match f
    case AccountType => d.(accountType := v)
    case FullName => d.(fullName := v)
    case Email => d.(email := v)
    case Phone => d.(phone := v)
    case Industry => d.(industry := v)
    case JobTitle => d.(jobTitle := v)
    case Bio => d.(bio := v)
    case Location => d.(location := v)
    case HourlyRate => d.(hourlyRate := v)
    case AdditionalInfo => d.(additionalInfo := v)
  }
}
