/** The exception messages the services throw, spelled exactly as thrown:
    the controllers map some of them to HTTP status codes by string
    comparison, and the spellings differ between call sites. */
module Messages {
  const UserNotFound := "User Not Found"
  /** The spelling used by `AddResponse` and `AddGroup`. */
  const UserNotFoundLower := "User not Found"
  /** The spelling used by `AddGroupToForm`. */
  const UserNotPresent := "User not Present"
  const FormNotPresent := "Form not Present"
  const FormNotFound := "Form not Found"
  const FormClosed := "Form Closed"
  const EdgeCaseMissed := "Edge Case Missed"
  const UserNotAuthorized := "User Not Authorized"
  /** The spelling used by `AddGroupToForm`. */
  const GroupNotPresent := "Group not Present"
  const GroupNotFound := "Group not Found"
  /** `FetchMembers`, when a tracked group no longer exists. */
  const TrackedGroupGone := "Group Not Present"
  const NotAuthorisedToDetach := "Not authorised to delete the Group from Form"
  const GroupNotDeleted := "Group Not Deleted From Form"
  const NotAuthorisedToDelete := "Not authorised to delete"
  /** Thrown by both roster edits for a caller who does not own the group. */
  const NotAuthorisedToEditGroup := "Not authorised to Add participant to Group"
  const NotAuthorisedToFetch := "Not authorised to Add participant to Form"
  /** Thrown by `DeleteMemberFromGroup` when a form had nothing to pull. */
  const MembersNotAdded := "Members not added into the forms"
}
