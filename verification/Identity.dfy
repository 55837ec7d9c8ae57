/** Memberships of subjects in accounts. */
module Identity {
  import opened Values

  datatype Role = Owner | Admin | Member

  datatype MembershipStatus = Active | Invited | Suspended

  datatype Membership = Membership(
    id: Uuid, accountId: Uuid, userId: Uuid, role: Role, status: MembershipStatus, joinedAt: Timestamp)

  datatype DenialReason = NotFound | WasInvited | WasSuspended
}
