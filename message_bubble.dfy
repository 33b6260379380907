/**
 * How one chat message is drawn (`components/MessageBubble.tsx`): whose it
 * is (the user, the system or an agent), which avatar it shows, which side
 * of the conversation it sits on, and whether the author's name is shown.
 */
module MessageBubble {
  import opened Wrappers
  import opened Types
  import opened Js
  import Constants

  predicate IsUser(author: MessageAuthor)
  {
    author.id == "user"
  }

  predicate IsSystem(author: MessageAuthor)
  {
    author.id == "system"
  }

  /** Any author that is neither the user nor the system. */
  predicate IsAgent(author: MessageAuthor)
  {
    !IsUser(author) && !IsSystem(author)
  }

  /** Every author is exactly one of the user, the system or an agent. */
  lemma ExactlyOneRole(author: MessageAuthor)
    ensures IsUser(author) || IsSystem(author) || IsAgent(author)
    ensures !(IsUser(author) && IsSystem(author))
    ensures !(IsUser(author) && IsAgent(author))
    ensures !(IsSystem(author) && IsAgent(author))
  {
  }

  /** The placeholder for the user's own avatar (U+1F464, bust in silhouette). */
  const UserGlyph: string := "\U{1F464}"

  /** The placeholder for the system and for agents without a profile (U+2699 U+FE0F, gear). */
  const GearGlyph: string := "\U{2699}\U{FE0F}"

  /** An avatar as drawn: an image, or a placeholder glyph. */
  datatype Avatar = Image(src: string) | Glyph(text: string)

  /** The avatar picture: the author's own for the user, the profile snapshot's for everyone else. */
  function AvatarUrl(author: MessageAuthor): (r: Option<string>)
    ensures IsUser(author) ==> r == author.avatarUrl
    ensures !IsUser(author) && author.profile.None? ==> r == None
    ensures !IsUser(author) && author.profile.Some? ==> r == author.profile.value.avatarUrl
  {
    if IsUser(author) then author.avatarUrl
    else if author.profile.Some? then author.profile.value.avatarUrl
    else None
  }

  /**
   * The glyph shown without a picture: an agent with a profile shows its
   * emotion's emoji, the user a silhouette, and anyone else (the system, an
   * agent without a profile) a gear.
   */
  function FallbackAvatar(author: MessageAuthor): (r: string)
    ensures |r| > 0
    ensures IsAgent(author) && author.profile.Some? ==> r == Constants.EmotionAvatar(author.profile.value.emotion)
    ensures IsUser(author) ==> r == UserGlyph
    ensures !IsUser(author) && (IsSystem(author) || author.profile.None?) ==> r == GearGlyph
  {
    if IsAgent(author) && author.profile.Some? then Constants.EmotionAvatar(author.profile.value.emotion)
    else if IsUser(author) then UserGlyph
    else GearGlyph
  }

  /** The picture when there is a non-empty one, the fallback glyph otherwise. */
  function RenderAvatar(author: MessageAuthor): (r: Avatar)
    ensures r.Image? <==> Truthy(AvatarUrl(author))
    ensures r.Image? ==> r.src != "" && Some(r.src) == AvatarUrl(author)
    ensures r.Glyph? ==> r.text == FallbackAvatar(author) && r.text != ""
  {
    if Truthy(AvatarUrl(author)) then Image(AvatarUrl(author).value) else Glyph(FallbackAvatar(author))
  }

  /** The flex alignment of a message row. */
  datatype Alignment = JustifyEnd | JustifyCenter | JustifyStart

  function AlignmentOf(author: MessageAuthor): (r: Alignment)
    ensures r == JustifyEnd <==> IsUser(author)
    ensures r == JustifyCenter <==> IsSystem(author)
    ensures r == JustifyStart <==> IsAgent(author)
  {
    if IsUser(author) then JustifyEnd else if IsSystem(author) then JustifyCenter else JustifyStart
  }

  /**
   * A drawn message. A system message is a centred line of text. Any other
   * message is a bubble with an avatar (clickable for a preview when it is a
   * picture), on the right of the bubble for the user and on the left for an
   * agent, and with the author's name above it for an agent only.
   */
  datatype Rendered =
    | SystemLine(text: string)
    | Bubble(alignment: Alignment, avatar: Avatar, avatarPreview: Option<string>,
             avatarFirst: bool, nameLabel: Option<string>, text: string)

  function Render(message: ChatMessage): (r: Rendered)
    ensures r.text == message.text
    ensures r.SystemLine? <==> IsSystem(message.author)
    ensures r.Bubble? ==> r.alignment == AlignmentOf(message.author)
    ensures r.Bubble? ==> (r.nameLabel.Some? <==> !IsUser(message.author))
    ensures r.Bubble? && r.nameLabel.Some? ==> r.nameLabel.value == message.author.name
    ensures r.Bubble? ==> (r.avatarFirst <==> IsAgent(message.author))
    ensures r.Bubble? ==> (r.avatarPreview.Some? <==> r.avatar.Image?)
    ensures r.Bubble? && r.avatar.Image? ==> r.avatarPreview == Some(r.avatar.src)
  {
    var author := message.author;
    if IsSystem(author) then SystemLine(message.text)
    else
      var avatar := RenderAvatar(author);
      Bubble(AlignmentOf(author), avatar,
             if avatar.Image? then Some(avatar.src) else None,
             !IsUser(author),
             if IsUser(author) then None else Some(author.name),
             message.text)
  }

  /** A bubble never shows an empty picture or an empty glyph. */
  lemma AvatarNeverBlank(message: ChatMessage)
    requires !IsSystem(message.author)
    ensures var r := Render(message);
      r.Bubble? && (r.avatar.Image? ==> r.avatar.src != "") && (r.avatar.Glyph? ==> r.avatar.text != "")
  {
  }
}
