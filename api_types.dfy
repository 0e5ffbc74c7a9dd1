/**
 * The client-facing (Mastodon API) shapes the core builds (`ferri-main/src/types/api.rs`):
 * accounts, statuses, registered applications and WebFinger documents.
 */
module ApiTypes {
  import opened Wrappers

  /** `Account`; the emoji and custom-field lists are always empty here and are not kept. */
  datatype Account = Account(
    id: string, username: string, acct: string, displayName: string,
    locked: bool, bot: bool, createdAt: string, attributionDomains: seq<string>,
    note: string, url: string,
    avatar: string, avatarStatic: string, header: string, headerStatic: string,
    followersCount: int, followingCount: int, statusesCount: int,
    lastStatusAt: Option<string>)

  datatype StatusAttachment = StatusAttachment(id: string, ty: string, url: string, description: string)

  /** `Status`, with the fields that are constant everywhere in the core left out. */
  datatype Status = Status(
    id: string, createdAt: string, sensitive: bool, visibility: string,
    uri: string, url: string, content: string,
    reblog: Option<Status>, account: Account, mediaAttachments: seq<StatusAttachment>)

  datatype CredentialApplication = CredentialApplication(
    name: string, scopes: string, redirectUris: seq<string>, clientId: string, clientSecret: string)

  datatype WebfingerLink = WebfingerLink(rel: string, ty: Option<string>, href: Option<string>)

  datatype WebfingerHit = WebfingerHit(subject: string, aliases: seq<string>, links: seq<WebfingerLink>)
}
