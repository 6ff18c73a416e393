/**
 * The pure parts of the admin invitation table in
 * src/components/admin/invitations-table.tsx: the status badge, the
 * shortened invite link and the rule that disables a row's actions.
 */
module InvitationsTable {
  import Invitations

  /** A row as the admin list action builds it from a stored invitation. */
  datatype Row = Row(
    id: nat, email: string, role: string, expires: int, used: bool, createdAt: int, inviteUrl: string)

  function RowOf(inv: Invitations.Invitation, appUrl: string): Row {
    Row(inv.id, inv.email, inv.role, inv.expires, inv.used, inv.createdAt,
        Invitations.InviteUrl(appUrl, inv.token))
  }

  datatype Badge = UsedBadge | ExpiredBadge | ActiveBadge

  function Label(b: Badge): string {
    match b
    case UsedBadge => "使用済み"
    case ExpiredBadge => "期限切れ"
    case ActiveBadge => "有効"
  }

  /** `getStatusBadge(invitation)` at time `now`. */
  function StatusBadge(row: Row, now: int): (b: Badge)
    ensures row.used ==> b == UsedBadge
    ensures !row.used && row.expires < now ==> b == ExpiredBadge
    ensures b == ActiveBadge <==> !row.used && now <= row.expires
  {
    if row.used then UsedBadge
    else if row.expires < now then ExpiredBadge
    else ActiveBadge
  }

  /** The text of the copy-link button. */
  function ShortUrl(url: string): (s: string)
    ensures |url| <= 30 ==> s == url
    ensures |url| > 30 ==>
              && |s| == 33
              && s[..15] == url[..15]
              && s[15..18] == "..."
              && s[18..] == url[|url| - 15..]
  {
    if |url| > 30 then url[..15] + "..." + url[|url| - 15..] else url
  }

  datatype RowActions = RowActions(copyDisabled: bool, deleteDisabled: bool)

  /** `disabled={invitation.used}` on the copy-link and the delete button. */
  function Actions(row: Row): (a: RowActions)
    ensures a.copyDisabled <==> row.used
    ensures a.deleteDisabled <==> row.used
  {
    RowActions(row.used, row.used)
  }

  /**
   * The badge of a stored invitation tells what validating its token at the
   * same instant answers: 有効 iff valid, 使用済み iff already used,
   * 期限切れ iff expired.
   */
  lemma BadgeAgreesWithValidation(table: Invitations.Table, token: string, appUrl: string, now: int)
    requires token in table && table[token].token == token
    ensures var b := StatusBadge(RowOf(table[token], appUrl), now);
            var v := Invitations.Validate(table, token, now);
            && (b == ActiveBadge <==> v.Valid?)
            && (b == UsedBadge <==> v == Invitations.Invalid(Invitations.MSG_USED))
            && (b == ExpiredBadge <==> v == Invitations.Invalid(Invitations.MSG_EXPIRED))
  {
  }

  /** Every invite link is longer than 30 characters, so the button shows its last 15, all from the token. */
  lemma InviteLinkIsShortened(appUrl: string, token: string)
    requires Invitations.IsToken(token)
    ensures var url := Invitations.InviteUrl(appUrl, token);
            |url| > 30 && ShortUrl(url)[18..] == token[49..]
  {
  }
}
