/** The records of src/types/auth.ts and src/types/asset.ts. */
module Types {

  datatype Option<+T> = None | Some(value: T)

  /** `UserRole = 'admin' | 'technician'` */
  datatype UserRole = Admin | Technician

  /** The public projection of a signed-in user (no password). */
  datatype User = User(id: string, name: string, email: string, role: UserRole)

  /** `AssetStatus = 'active' | 'neardue' | 'expired'` */
  datatype AssetStatus = Active | NearDue | Expired

  /** The string the source stores in `asset.status`. */
  function StatusName(s: AssetStatus): string
  {
    match s
    case Active => "active"
    case NearDue => "neardue"
    case Expired => "expired"
  }

  /** Dates are abstracted to their signed distance in days from today. */
  type DayOffset = int

  datatype Document = Document(id: string, name: string, dateUploaded: DayOffset, url: string)

  datatype Asset = Asset(
    id: string,
    name: string,
    serialNumber: string,
    classification: string,
    issueDate: DayOffset,
    lastTestDate: DayOffset,
    nextTestDate: DayOffset,
    status: AssetStatus,
    assignedTo: string,
    documents: seq<Document>)

  /** Distinct statuses have distinct names, so comparing names compares statuses. */
  lemma StatusNameInjective(s: AssetStatus, t: AssetStatus)
    ensures StatusName(s) == StatusName(t) <==> s == t
  {
  }
}
