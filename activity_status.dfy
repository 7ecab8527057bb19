/**
 * src/lib/utils/activity.ts: activity status strings between the
 * frontend's lower-case spelling and the backend's capitalised one.
 */
module ActivityStatus {
  import opened Common

  /** The frontend spellings, in the order of `validStatuses`. */
  const FrontendStatuses: seq<string> := ["draft", "published", "ongoing", "completed", "cancelled"]

  /** The backend spellings, index by index. */
  const BackendStatuses: seq<string> := ["Draft", "Published", "Ongoing", "Completed", "Cancelled"]

  /** `isValidActivityStatus` */
  predicate IsValidActivityStatus(status: string) {
    status in FrontendStatuses
  }

  /** `convertStatusForBackend`: the table entry, or the input unchanged. */
  function ConvertStatusForBackend(status: string): (b: string)
    ensures IsValidActivityStatus(status) ==> b in BackendStatuses
    ensures !IsValidActivityStatus(status) ==> b == status
  {
    match status
    case "draft" => "Draft"
    case "published" => "Published"
    case "ongoing" => "Ongoing"
    case "completed" => "Completed"
    case "cancelled" => "Cancelled"
    case _ => status
  }

  /** `convertStatusFromBackend`: the table entry, or the input in lower case. */
  function ConvertStatusFromBackend(status: string): (f: string)
    ensures status in BackendStatuses ==> IsValidActivityStatus(f)
    ensures status !in BackendStatuses ==> f == ToLower(status)
  {
    match status
    case "Draft" => "draft"
    case "Published" => "published"
    case "Ongoing" => "ongoing"
    case "Completed" => "completed"
    case "Cancelled" => "cancelled"
    case _ => ToLower(status)
  }

  /** The two tables are inverse to each other, index by index. */
  lemma TablesCorrespond(k: nat)
    requires k < 5
    ensures ConvertStatusForBackend(FrontendStatuses[k]) == BackendStatuses[k]
    ensures ConvertStatusFromBackend(BackendStatuses[k]) == FrontendStatuses[k]
  {
  }

  /** A valid status survives the trip to the backend and back. */
  lemma FrontendRoundTrip(status: string)
    requires IsValidActivityStatus(status)
    ensures ConvertStatusFromBackend(ConvertStatusForBackend(status)) == status
  {
  }

  /** A backend status survives the trip to the frontend and back. */
  lemma BackendRoundTrip(status: string)
    requires status in BackendStatuses
    ensures ConvertStatusForBackend(ConvertStatusFromBackend(status)) == status
  {
  }

  /** The backend name of each frontend status is its lower-case form's capitalisation. */
  lemma LowerOfBackendIsFrontend(k: nat)
    requires k < 5
    ensures ToLower(BackendStatuses[k]) == FrontendStatuses[k]
  {
    var b := BackendStatuses[k];
    var f := FrontendStatuses[k];
    assert |ToLower(b)| == |f|;
    assert ToLower(b)[0] == LowerChar(b[0]) == f[0];
    forall i | 1 <= i < |f| ensures ToLower(b)[i] == f[i] {
      assert b[i] == f[i];
    }
  }

  /** For every input, to the backend and back is lower-casing. */
  lemma ForThenFromIsLowercase(status: string)
    ensures ConvertStatusFromBackend(ConvertStatusForBackend(status)) == ToLower(status)
  {
    if IsValidActivityStatus(status) {
      var k :| 0 <= k < 5 && FrontendStatuses[k] == status;
      TablesCorrespond(k);
      var f := FrontendStatuses[k];
      forall i | 0 <= i < |f| ensures LowerChar(f[i]) == f[i] {
      }
      assert ToLower(status) == status;
    } else if status in BackendStatuses {
      var k :| 0 <= k < 5 && BackendStatuses[k] == status;
      TablesCorrespond(k);
      LowerOfBackendIsFrontend(k);
    }
  }
}
