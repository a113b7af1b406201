/** The dashboard: the status badge class and the recent-enrollments table. */
module Dashboard {
  import opened Types

  const BlueBadge := "bg-blue-100 text-blue-800"
  const GreenBadge := "bg-green-100 text-green-800"
  const RedBadge := "bg-red-100 text-red-800"
  const GrayBadge := "bg-gray-100 text-gray-800"
  const SlateBadge := "bg-slate-100 text-slate-800"

  /** The badge class of a status string: one colour per status shown in the
      table, and slate for every other string, WITHDRAWN included. */
  function StatusClass(status: string): (c: string)
    ensures c == BlueBadge <==> status == ACTIVE.Name()
    ensures c == GreenBadge <==> status == COMPLETED.Name()
    ensures c == RedBadge <==> status == FAILED.Name()
    ensures c == GrayBadge <==> status == DROPPED.Name()
    ensures c == SlateBadge <==> status !in {ACTIVE.Name(), COMPLETED.Name(), FAILED.Name(), DROPPED.Name()}
  {
    if status == "ACTIVE" then BlueBadge
    else if status == "COMPLETED" then GreenBadge
    else if status == "FAILED" then RedBadge
    else if status == "DROPPED" then GrayBadge
    else SlateBadge
  }

  /** `enrollments.slice(0, 5)`: the first five enrollments, or all of them
      when there are fewer. */
  function RecentEnrollments(es: seq<EnrollmentDTO>): (r: seq<EnrollmentDTO>)
    ensures |r| == if |es| < 5 then |es| else 5
    ensures forall i :: 0 <= i < |r| ==> r[i] == es[i]
  {
    if |es| <= 5 then es else es[..5]
  }
}
