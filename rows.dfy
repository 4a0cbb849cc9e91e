/** The rows the dashboard routes read from the hosted store, as explicit records.
    Ids are integers; a nullable column is an Option; a column the route reads
    with `.get(key, default)` is a Field, which tells a missing key apart from a
    key holding null. */
module Rows {

  datatype Option<T> = None | Some(value: T)

  /** A column read with `row.get(key, default)`: the default replaces a
      missing key only, never a null value. */
  datatype Field<T> = Missing | Null | Present(value: T)

  /** The abbreviated month name `strftime("%b")` produces. */
  datatype Month = Jan | Feb | Mar | Apr | May | Jun | Jul | Aug | Sep | Oct | Nov | Dec

  /** A `created_at` value that `strptime` accepted: its month and the instant
      in microseconds (naive, on the same clock as the route's "now"). */
  datatype Timestamp = Timestamp(month: Month, micros: int)

  /** An application. `createdAt` is None when `created_at` is null or does not
      parse with the format `%Y-%m-%dT%H:%M:%S.%f`. */
  datatype Application = Application(jobId: Option<int>, status: Option<string>, createdAt: Option<Timestamp>)

  datatype Job = Job(id: int, companyId: Option<int>, title: Option<string>)

  datatype Company = Company(id: int, recruiterId: Option<int>, name: Option<string>)

  datatype Recruiter = Recruiter(id: int, fullName: Option<string>)

  /** A candidate profile. Scores are whole numbers here. */
  datatype Profile = Profile(
    source: Field<string>,
    location: Field<string>,
    gender: Field<string>,
    skills: Field<seq<string>>,
    skillsScore: Option<int>,
    contextScore: Option<int>)

  /** Python truthiness of a nullable integer id: null and 0 are falsy. */
  predicate Truthy(id: Option<int>)
  {
    id.Some? && id.value != 0
  }

  /** `row.get(key, default)` on a text column. */
  function FieldOr(f: Field<string>, default: string): (v: Option<string>)
    ensures f.Missing? ==> v == Some(default)
    ensures f.Null? ==> v == None
    ensures f.Present? ==> v == Some(f.value)
  {
    match f
    case Missing => Some(default)
    case Null => None
    case Present(s) => Some(s)
  }
}
