/** The life of a stored query (backend/app/models/query.py). */
module Queries {
  datatype QueryStatus = Pending | Processing | Completed | PendingApproval | Rejected | Failed
}
