/**
 * The profile card (script.js:6-10, 64-146, 154). Once the four lookups (user, avatar,
 * groups, presence) have settled, `fillCard` writes the card's display fields in four
 * independent steps, each driven by one outcome only. A rejected outcome writes only
 * its fallback or nothing: the user step still writes the `ID: ` name, and the presence
 * text and class keep the loading state written first. `Settle` states the resulting display state as a function of the
 * previous one, `Card.FillCard` performs the writes one field at a time, and the lemmas
 * below state failure isolation, the fallbacks and the presence class.
 */
module Card {
  import opened Js
  import opened Groups
  import opened Presence

  /** The user lookup's body: `displayName` and `name`, each possibly absent. */
  datatype UserInfo = UserInfo(displayName: Option<string>, name: Option<string>)

  /** An entry of the thumbnail response's `data` array. */
  datatype ImageEntry = ImageEntry(imageUrl: Option<string>)

  /** The thumbnail response body; `data` is `None` when it is missing or null. */
  datatype AvatarBody = AvatarBody(data: Option<seq<ImageEntry>>)

  /**
   * The four settled lookups, in the order they are handed to `Promise.allSettled`.
   * A fulfilled avatar or presence lookup carries the response body; the selectors of
   * `fetchAvatar` and `fetchPresence` are applied by the steps that read them.
   */
  datatype Lookups = Lookups(
    user: Settled<UserInfo>,
    avatar: Settled<AvatarBody>,
    groups: Settled<GroupsBody>,
    presence: Settled<PresenceBody>)

  /** The display fields of the card that `fillCard` writes. */
  datatype CardView = CardView(
    username: string,       // usernameEl.textContent
    profileHref: string,    // profileBtn.href
    avatarSrc: string,      // avatarImg.src
    primaryGroup: string,   // groupNameEl.textContent
    groupsHtml: string,     // groupsListEl.innerHTML
    presenceText: string,   // presenceEl.textContent
    presenceClass: string,  // presenceEl.className
    gameText: string)       // gameNameEl.textContent

  const LoadingName := "Yükleniyor..."
  const LoadingPresence := "Yükleniyor"

  /** The avatar lookup's value: the first entry's `imageUrl`, or null when there is no first entry (script.js:43). */
  function FirstImageUrl(data: Option<seq<ImageEntry>>): (r: Option<string>)
    ensures data.None? || data.value == [] ==> r.None?
    ensures data.Some? && data.value != [] ==> r == data.value[0].imageUrl
  {
    if data.Some? && data.value != [] then data.value[0].imageUrl else None
  }

  /** The fallback name: `ID: ` followed by the user id. */
  function IdText(id: string): string
  {
    "ID: " + id
  }

  function ProfileUrl(id: string): string
  {
    "https://www.roblox.com/users/" + id + "/profile"
  }

  /** `displayName || name || "ID: " + id`. */
  function ShownName(id: string, u: UserInfo): (r: string)
    ensures r != ""
    ensures TruthyText(u.displayName) ==> r == u.displayName.value
    ensures !TruthyText(u.displayName) && TruthyText(u.name) ==> r == u.name.value
    ensures !TruthyText(u.displayName) && !TruthyText(u.name) ==> r == IdText(id)
  {
    if TruthyText(u.displayName) then u.displayName.value
    else if TruthyText(u.name) then u.name.value
    else IdText(id)
  }

  // ---------------------------------------------------------------------------
  // The display state after each step of fillCard
  // ---------------------------------------------------------------------------

  /** The loading state written before the lookups start (script.js:66-68). */
  function WithLoading(v: CardView): CardView
  {
    v.(username := LoadingName, presenceText := LoadingPresence, presenceClass := "offline")
  }

  /** The user step (script.js:78-84). */
  function WithUser(v: CardView, id: string, user: Settled<UserInfo>): CardView
  {
    match user
    case Fulfilled(u) => v.(username := ShownName(id, u), profileHref := ProfileUrl(id))
    case Rejected => v.(username := IdText(id))
  }

  /** The avatar step (script.js:87-92): only a truthy URL replaces the picture. */
  function WithAvatar(v: CardView, avatar: Settled<AvatarBody>): CardView
  {
    if avatar.Fulfilled? && TruthyText(FirstImageUrl(avatar.value.data)) then
      v.(avatarSrc := FirstImageUrl(avatar.value.data).value)
    else v
  }

  /** The group step (script.js:95-107): only a fulfilled lookup whose `data` is an array writes. */
  function WithGroups(v: CardView, groups: Settled<GroupsBody>): CardView
  {
    if groups.Fulfilled? && groups.value.data.Some? then
      var ms := groups.value.data.value;
      if |ms| > 0 then v.(primaryGroup := PrimaryGroupText(ms), groupsHtml := GroupsListHtml(ms))
      else v.(primaryGroup := NoGroupsText, groupsHtml := NoGroupsHtml)
    else v
  }

  /** The presence step (script.js:110-140): only a fulfilled, non-null presence writes. */
  function WithPresence(v: CardView, presence: Settled<PresenceBody>): CardView
  {
    if presence.Fulfilled? && FirstPresence(presence.value.userPresences).Some? then
      var pv := Classify(FirstPresence(presence.value.userPresences).value);
      v.(presenceText := pv.text, presenceClass := pv.cls, gameText := pv.game)
    else v
  }

  /** The display state `fillCard(id)` leaves behind, given the state before and the settled lookups. */
  function Settle(v: CardView, id: string, l: Lookups): CardView
  {
    WithPresence(WithGroups(WithAvatar(WithUser(WithLoading(v), id, l.user), l.avatar), l.groups), l.presence)
  }

  // ---------------------------------------------------------------------------
  // The card and its update
  // ---------------------------------------------------------------------------

  /** The card's elements, reduced to the display fields `fillCard` writes. */
  class Card {
    var username: string
    var profileHref: string
    var avatarSrc: string
    var primaryGroup: string
    var groupsHtml: string
    var presenceText: string
    var presenceClass: string
    var gameText: string

    function View(): CardView
      reads this
    {
      CardView(username, profileHref, avatarSrc, primaryGroup, groupsHtml, presenceText, presenceClass, gameText)
    }

    /** The card as the page's markup first shows it. */
    constructor (initial: CardView)
      ensures View() == initial
    {
      username, profileHref, avatarSrc := initial.username, initial.profileHref, initial.avatarSrc;
      primaryGroup, groupsHtml := initial.primaryGroup, initial.groupsHtml;
      presenceText, presenceClass, gameText := initial.presenceText, initial.presenceClass, initial.gameText;
    }

    /** `fillCard(id)` from the moment the four lookups have settled with `lookups`. */
    method FillCard(id: string, lookups: Lookups)
      modifies this
      ensures View() == Settle(old(View()), id, lookups)
    {
      username := LoadingName;
      presenceText := LoadingPresence;
      presenceClass := "offline";
      ShowUser(id, lookups.user);
      ShowAvatar(lookups.avatar);
      ShowGroups(lookups.groups);
      ShowPresence(lookups.presence);
    }

    /** The user section of `fillCard` (script.js:78-84). */
    method ShowUser(id: string, user: Settled<UserInfo>)
      modifies this
      ensures View() == WithUser(old(View()), id, user)
    {
      match user {
        case Fulfilled(u) =>
          username := ShownName(id, u);
          profileHref := ProfileUrl(id);
        case Rejected =>
          username := IdText(id);
      }
    }

    /** The avatar section of `fillCard` (script.js:87-92). */
    method ShowAvatar(avatar: Settled<AvatarBody>)
      modifies this
      ensures View() == WithAvatar(old(View()), avatar)
    {
      if avatar.Fulfilled? {
        var avatarUrl := FirstImageUrl(avatar.value.data);
        if TruthyText(avatarUrl) {
          avatarSrc := avatarUrl.value;
        }
      }
    }

    /** The group section of `fillCard` (script.js:95-107). */
    method ShowGroups(groupsResp: Settled<GroupsBody>)
      modifies this
      ensures View() == WithGroups(old(View()), groupsResp)
    {
      if groupsResp.Fulfilled? && groupsResp.value.data.Some? {
        var groups := groupsResp.value.data.value;
        if |groups| > 0 {
          primaryGroup := PrimaryGroupText(groups);
          groupsHtml := GroupsListHtml(groups);
        } else {
          primaryGroup := NoGroupsText;
          groupsHtml := NoGroupsHtml;
        }
      }
    }

    /** The presence section of `fillCard` (script.js:110-140). */
    method ShowPresence(presence: Settled<PresenceBody>)
      modifies this
      ensures View() == WithPresence(old(View()), presence)
    {
      var first := if presence.Fulfilled? then FirstPresence(presence.value.userPresences) else None;
      if first.Some? {
        var p := first.value;
        var isOnline := TruthyNumber(p.userPresenceType) && p.userPresenceType.value != 0;
        if isOnline {
          if TruthyNumber(p.placeId) || TruthyNumber(p.universeId) {
            presenceText := InGameText;
            presenceClass := "online";
            var placeId := ShownPlace(p);
            if placeId.Some? {
              gameText := PlacePrefix + IntText(placeId.value);
            } else {
              gameText := PlayingText;
            }
          } else {
            presenceText := OnlineText;
            presenceClass := "online";
            gameText := NoGame;
          }
        } else {
          presenceText := OfflineText;
          presenceClass := "offline";
          gameText := NoGame;
        }
      }
    }
  }

  // ---------------------------------------------------------------------------
  // Start-up: the user id guard
  // ---------------------------------------------------------------------------

  /** `card.dataset.userId?.trim()` when it is truthy, else `None`. */
  function ConfiguredId(raw: Option<string>): (r: Option<string>)
    ensures r.None? <==> raw.None? || SpaceBetween(raw.value, 0, |raw.value|)
    ensures r.Some? ==> r.value != "" && r.value == Trim(raw.value)
  {
    if raw.None? then None
    else
      var id := Trim(raw.value);
      TrimEmptyIff(raw.value);
      if id == "" then None else Some(id)
  }

  /**
   * The load handler: with no usable user id nothing is looked up and the card is left
   * alone; otherwise the four lookups run for the trimmed id and their settled outcomes,
   * given by `network`, fill the card.
   */
  method OnContentLoaded(card: Card, rawUserId: Option<string>, network: string -> Lookups)
    returns (lookedUp: Option<string>)
    modifies card
    ensures lookedUp == ConfiguredId(rawUserId)
    ensures lookedUp.None? ==> card.View() == old(card.View())
    ensures lookedUp.Some? ==> card.View() == Settle(old(card.View()), lookedUp.value, network(lookedUp.value))
  {
    var userId := ConfiguredId(rawUserId);
    if userId.None? {
      return None;
    }
    card.FillCard(userId.value, network(userId.value));
    return userId;
  }

  // ---------------------------------------------------------------------------
  // Properties of the update
  // ---------------------------------------------------------------------------

  /** The name shown and the profile link, for either outcome of the user lookup. */
  lemma UserFields(v: CardView, id: string, l: Lookups)
    ensures var r := Settle(v, id, l);
      && r.username != ""
      && (l.user.Rejected? ==> r.username == IdText(id) && r.profileHref == v.profileHref)
      && (l.user.Fulfilled? ==> r.username == ShownName(id, l.user.value) && r.profileHref == ProfileUrl(id))
  {
  }

  /**
   * The picture becomes the `imageUrl` of the first entry of the thumbnail `data` when
   * that is a non-empty string; a rejection, a missing or empty `data` or a falsy URL
   * keeps the picture the card had.
   */
  lemma AvatarField(v: CardView, id: string, l: Lookups)
    ensures var r := Settle(v, id, l);
      if l.avatar.Fulfilled? && l.avatar.value.data.Some? && l.avatar.value.data.value != []
         && TruthyText(l.avatar.value.data.value[0].imageUrl)
      then r.avatarSrc == l.avatar.value.data.value[0].imageUrl.value
      else r.avatarSrc == v.avatarSrc
  {
  }

  /** The group fields: the list for a non-empty array, the empty-state for an empty one, untouched otherwise. */
  lemma GroupFields(v: CardView, id: string, l: Lookups)
    ensures var r := Settle(v, id, l);
      && (l.groups.Fulfilled? && l.groups.value.data.Some? && l.groups.value.data.value != [] ==>
            var ms := l.groups.value.data.value;
            r.primaryGroup == PrimaryGroupText(ms) && r.groupsHtml == ListOpen + ListItems(ms) + ListClose)
      && (l.groups.Fulfilled? && l.groups.value.data == Some([]) ==>
            r.primaryGroup == NoGroupsText && r.groupsHtml == NoGroupsHtml)
      && (l.groups.Rejected? || l.groups.value.data.None? ==>
            r.primaryGroup == v.primaryGroup && r.groupsHtml == v.groupsHtml)
  {
  }

  /**
   * The presence fields: the decision on the first entry of `userPresences` when there
   * is one; the loading state (and the old game text) when the lookup failed or
   * `userPresences` is missing or empty.
   */
  lemma PresenceFields(v: CardView, id: string, l: Lookups)
    ensures var r := Settle(v, id, l);
      && (r.presenceClass == "online" || r.presenceClass == "offline")
      && (l.presence.Fulfilled? && l.presence.value.userPresences.Some? && l.presence.value.userPresences.value != [] ==>
            PresenceView(r.presenceText, r.presenceClass, r.gameText) == Classify(l.presence.value.userPresences.value[0]))
      && (l.presence.Rejected? || l.presence.value.userPresences.None? || l.presence.value.userPresences.value == [] ==>
            r.presenceText == LoadingPresence && r.presenceClass == "offline" && r.gameText == v.gameText)
  {
    if l.presence.Fulfilled? && FirstPresence(l.presence.value.userPresences).Some? {
      DecisionTable(FirstPresence(l.presence.value.userPresences).value);
    }
  }

  /**
   * Failure isolation: each outcome decides its own fields and nothing else, so
   * changing one outcome cannot change the fields of the other three.
   */
  lemma OutcomesIsolated(v: CardView, id: string, l1: Lookups, l2: Lookups)
    ensures var r1, r2 := Settle(v, id, l1), Settle(v, id, l2);
      && (l1.user == l2.user ==> r1.username == r2.username && r1.profileHref == r2.profileHref)
      && (l1.avatar == l2.avatar ==> r1.avatarSrc == r2.avatarSrc)
      && (l1.groups == l2.groups ==> r1.primaryGroup == r2.primaryGroup && r1.groupsHtml == r2.groupsHtml)
      && (l1.presence == l2.presence ==>
            r1.presenceText == r2.presenceText && r1.presenceClass == r2.presenceClass && r1.gameText == r2.gameText)
  {
    var r1, r2 := Settle(v, id, l1), Settle(v, id, l2);
    if l1.user == l2.user {
      assert r1.username == r2.username && r1.profileHref == r2.profileHref by {
        UserFields(v, id, l1);
        UserFields(v, id, l2);
      }
    }
    if l1.avatar == l2.avatar {
      assert r1.avatarSrc == r2.avatarSrc by {
        AvatarField(v, id, l1);
        AvatarField(v, id, l2);
      }
    }
    if l1.groups == l2.groups {
      assert r1.primaryGroup == r2.primaryGroup && r1.groupsHtml == r2.groupsHtml by {
        GroupFields(v, id, l1);
        GroupFields(v, id, l2);
      }
    }
    if l1.presence == l2.presence {
      assert r1.presenceText == r2.presenceText && r1.presenceClass == r2.presenceClass
          && r1.gameText == r2.gameText by {
        PresenceFields(v, id, l1);
        PresenceFields(v, id, l2);
      }
    }
  }

  /** With every lookup rejected only the name fallback and the loading presence are written. */
  lemma AllRejected(v: CardView, id: string)
    ensures Settle(v, id, Lookups(Rejected, Rejected, Rejected, Rejected))
         == v.(username := IdText(id), presenceText := LoadingPresence, presenceClass := "offline")
  {
  }

  /** Filling the card again with the same outcomes changes nothing more. */
  lemma SettleIdempotent(v: CardView, id: string, l: Lookups)
    ensures Settle(Settle(v, id, l), id, l) == Settle(v, id, l)
  {
  }

  /** The four steps write disjoint fields, so the order they run in does not matter. */
  lemma StepsCommute(v: CardView, id: string, l: Lookups)
    ensures Settle(v, id, l)
         == WithUser(WithAvatar(WithGroups(WithPresence(WithLoading(v), l.presence), l.groups), l.avatar), id, l.user)
  {
  }

  /** Whatever the group names and roles hold, the list markup carries exactly two tags per membership. */
  lemma GroupsListSafe(v: CardView, id: string, l: Lookups)
    requires l.groups.Fulfilled? && l.groups.value.data.Some? && l.groups.value.data.value != []
    ensures var ms := l.groups.value.data.value;
      Settle(v, id, l).groupsHtml == ListOpen + ListItems(ms) + ListClose && Count('<', ListItems(ms)) == 2 * |ms|
  {
    ListItemsTagCount(l.groups.value.data.value);
  }
}
