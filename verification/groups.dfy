/**
 * The group section of the card (script.js:95-107): the primary-group text and the
 * markup of the group list, built from the `data` array of the group-roles response.
 */
module Groups {
  import opened Js
  import opened Html

  /** One entry of `data`: `group.name` and `role.name`, each possibly absent. */
  datatype Membership = Membership(groupName: Option<string>, roleName: Option<string>)

  /** The group-roles response body; `data` is `None` when it is missing or not an array. */
  datatype GroupsBody = GroupsBody(data: Option<seq<Membership>>)

  const ListOpen := "<strong>Gruplar:</strong><ul style=\"margin-top:8px;\">"
  const ListClose := "</ul>"
  const NoGroupsHtml := "<em style=\"opacity:.8\">Kullanıcı herhangi bir gruba ait değil veya gizli.</em>"
  const NoGroupsText := "Bulunamadı"
  const Dash := "—"

  /** The number of occurrences of `c` in `s`. */
  function Count(c: char, s: string): nat
  {
    if s == [] then 0 else (if s[0] == c then 1 else 0) + Count(c, s[1..])
  }

  lemma {:induction false} CountAppend(c: char, a: string, b: string)
    ensures Count(c, a + b) == Count(c, a) + Count(c, b)
  {
    if a == [] {
      assert a + b == b;
    } else {
      assert (a + b)[0] == a[0] && (a + b)[1..] == a[1..] + b;
      CountAppend(c, a[1..], b);
    }
  }

  lemma {:induction false} CountAbsent(c: char, s: string)
    requires forall i | 0 <= i < |s| :: s[i] != c
    ensures Count(c, s) == 0
  {
    if s != [] {
      assert forall i | 0 <= i < |s| - 1 :: s[1..][i] == s[i + 1];
      CountAbsent(c, s[1..]);
    }
  }

  lemma CountMarkupFree(s: string)
    requires MarkupFree(s)
    ensures Count('<', s) == 0
  {
    CountAbsent('<', s);
  }

  /** The `<li>` of one membership: escaped group name, the role label, escaped role name. */
  function ListItem(m: Membership): string
  {
    "<li>" + EscapeHtml(m.groupName) + " — Rol: " + EscapeHtml(m.roleName) + "</li>"
  }

  /** Whatever the names contain, the only `<` of an item are those of its `<li>` and `</li>`. */
  lemma ListItemTagCount(m: Membership)
    ensures Count('<', ListItem(m)) == 2
  {
    var g, ro := EscapeHtml(m.groupName), EscapeHtml(m.roleName);
    var opening, roleLabel, closing := "<li>", " — Rol: ", "</li>";
    CountMarkupFree(g);
    CountMarkupFree(ro);
    CountAbsent('<', roleLabel);
    CountOpening(opening);
    CountOpening(closing);
    CountAppend('<', opening, g);
    CountAppend('<', opening + g, roleLabel);
    CountAppend('<', opening + g + roleLabel, ro);
    CountAppend('<', opening + g + roleLabel + ro, closing);
  }

  /** A tag written as `<` followed by text free of `<` holds exactly one `<`. */
  lemma CountOpening(tag: string)
    requires tag != [] && tag[0] == '<' && forall i | 1 <= i < |tag| :: tag[i] != '<'
    ensures Count('<', tag) == 1
  {
    assert forall i | 0 <= i < |tag| - 1 :: tag[1..][i] == tag[i + 1];
    CountAbsent('<', tag[1..]);
  }

  /** `groups.map(...).join("")`: the items of all memberships, in the order of `data`. */
  function ListItems(ms: seq<Membership>): (r: string)
  {
    if ms == [] then "" else ListItem(ms[0]) + ListItems(ms[1..])
  }

  /** The `innerHTML` written for a non-empty `data` array. */
  function GroupsListHtml(ms: seq<Membership>): string
  {
    ListOpen + ListItems(ms) + ListClose
  }

  /** `groups[0].group.name || "—"`. */
  function PrimaryGroupText(ms: seq<Membership>): (r: string)
    requires ms != []
    ensures r != ""
    ensures TruthyText(ms[0].groupName) ==> r == ms[0].groupName.value
    ensures !TruthyText(ms[0].groupName) ==> r == Dash
  {
    if TruthyText(ms[0].groupName) then ms[0].groupName.value else Dash
  }

  /** The items of a concatenation are the items of the parts. */
  lemma {:induction false} ListItemsAppend(a: seq<Membership>, b: seq<Membership>)
    ensures ListItems(a + b) == ListItems(a) + ListItems(b)
  {
    if a == [] {
      assert a + b == b;
    } else {
      assert (a + b)[0] == a[0] && (a + b)[1..] == a[1..] + b;
      ListItemsAppend(a[1..], b);
    }
  }

  /** Entry `i` of `data` is rendered as the `i`-th item, after those of the entries before it. */
  lemma {:induction false} ListItemsAt(ms: seq<Membership>, i: nat)
    requires i < |ms|
    ensures ListItems(ms) == ListItems(ms[..i]) + ListItem(ms[i]) + ListItems(ms[i + 1..])
  {
    var before, after := ms[..i], ms[i + 1..];
    assert ms == before + ([ms[i]] + after);
    ListItemsAppend(before, [ms[i]] + after);
    ListItemsCons(ms[i], after);
  }

  lemma ListItemsCons(m: Membership, ms: seq<Membership>)
    ensures ListItems([m] + ms) == ListItem(m) + ListItems(ms)
  {
    assert ([m] + ms)[0] == m && ([m] + ms)[1..] == ms;
  }

  /**
   * No membership can inject markup: every `<` of the list items comes from an
   * `<li>` or `</li>` of the template, two per entry.
   */
  lemma {:induction false} ListItemsTagCount(ms: seq<Membership>)
    ensures Count('<', ListItems(ms)) == 2 * |ms|
  {
    if ms != [] {
      ListItemsTagCount(ms[1..]);
      ListItemTagCount(ms[0]);
      CountAppend('<', ListItem(ms[0]), ListItems(ms[1..]));
    }
  }
}
