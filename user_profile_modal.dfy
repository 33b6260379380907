/**
 * The dialog where the user edits their own profile
 * (`components/UserProfileModal.tsx`). Every handler builds a new profile
 * from the current one and hands it to the store; the dialog draws nothing
 * while closed.
 */
module UserProfileModal {
  import opened Wrappers
  import opened Types
  import opened Js
  import MessageBubble

  /** The three text fields of a profile the dialog edits. */
  datatype ProfileField = NameField | BioField | AvatarUrlField

  /** `handleChange(field, value)`: the named field takes the value, the others keep theirs. */
  function HandleChange(profile: UserProfile, field: ProfileField, value: string): (r: UserProfile)
    ensures r.name == (if field == NameField then value else profile.name)
    ensures r.bio == (if field == BioField then value else profile.bio)
    ensures r.avatarUrl == (if field == AvatarUrlField then Some(value) else profile.avatarUrl)
  {
    match field
    case NameField => profile.(name := value)
    case BioField => profile.(bio := value)
    case AvatarUrlField => profile.(avatarUrl := Some(value))
  }

  /** A file read as a data URL becomes the avatar; name and bio are kept. */
  function LoadAvatar(profile: UserProfile, dataUrl: string): (r: UserProfile)
    ensures r.avatarUrl == Some(dataUrl) && r.name == profile.name && r.bio == profile.bio
  {
    profile.(avatarUrl := Some(dataUrl))
  }

  /** `handleRemoveAvatar`: the avatar becomes the empty string; name and bio are kept. */
  function RemoveAvatar(profile: UserProfile): (r: UserProfile)
    ensures r.avatarUrl == Some("") && r.name == profile.name && r.bio == profile.bio
  {
    profile.(avatarUrl := Some(""))
  }

  /** "View Full Size" and "Remove Avatar" are offered only for a non-empty avatar. */
  predicate AvatarActionsShown(profile: UserProfile)
  {
    Truthy(profile.avatarUrl)
  }

  /** What the placeholder span holds as written: the silhouette between two apostrophes. */
  const PlaceholderAsWritten: string := "'\U{1F464}'"

  /** The placeholder the dialog evidently means: the same silhouette the chat shows for the user. */
  const Placeholder: string := MessageBubble.UserGlyph

  /** The placeholder as written shows the quote characters around the glyph. */
  lemma PlaceholderAsWrittenShowsQuotes()
    ensures |PlaceholderAsWritten| == 3
    ensures PlaceholderAsWritten[0] == '\'' && PlaceholderAsWritten[2] == '\''
    ensures PlaceholderAsWritten != MessageBubble.UserGlyph
  {
  }

  /** The corrected placeholder is the single glyph the chat bubbles use for the user. */
  lemma PlaceholderMatchesChat(author: MessageAuthor)
    requires MessageBubble.IsUser(author)
    ensures Placeholder == MessageBubble.FallbackAvatar(author)
    ensures |Placeholder| == 1 && '\'' !in Placeholder
  {
  }

  /** What an open dialog shows: the avatar, its actions, and the three input fields. */
  datatype View = View(avatar: MessageBubble.Avatar, avatarActions: bool,
                       avatarUrlField: string, nameField: string, bioField: string)

  /** A closed dialog renders nothing; an open one shows the profile. */
  function Render(isOpen: bool, profile: UserProfile): (r: Option<View>)
    ensures r.None? <==> !isOpen
    ensures r.Some? ==> r.value.avatarActions == AvatarActionsShown(profile)
    ensures r.Some? ==> (r.value.avatar.Image? <==> AvatarActionsShown(profile))
    ensures r.Some? && r.value.avatar.Image? ==> Some(r.value.avatar.src) == profile.avatarUrl
    ensures r.Some? && r.value.avatar.Glyph? ==> r.value.avatar.text == Placeholder
    ensures r.Some? ==> r.value.avatarUrlField == OrElse(profile.avatarUrl, "")
    ensures r.Some? ==> r.value.nameField == profile.name && r.value.bioField == profile.bio
  {
    if !isOpen then None
    else
      var avatar := if Truthy(profile.avatarUrl) then MessageBubble.Image(profile.avatarUrl.value)
                    else MessageBubble.Glyph(Placeholder);
      Some(View(avatar, Truthy(profile.avatarUrl), OrElse(profile.avatarUrl, ""), profile.name, profile.bio))
  }

  /** Removing the avatar hides its actions; typing a URL shows them exactly when it is non-empty. */
  lemma AvatarActionsFollowEdits(profile: UserProfile, url: string)
    ensures !AvatarActionsShown(RemoveAvatar(profile))
    ensures AvatarActionsShown(HandleChange(profile, AvatarUrlField, url)) <==> url != ""
    ensures AvatarActionsShown(LoadAvatar(profile, url)) <==> url != ""
  {
  }

  /** The URL field shows what was typed into it. */
  lemma AvatarUrlFieldRoundTrip(profile: UserProfile, url: string)
    ensures Render(true, HandleChange(profile, AvatarUrlField, url)).value.avatarUrlField == url
  {
  }
}
