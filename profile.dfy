/**
 * The profile page: who may see it, the membership badge colour, the monthly
 * price of a tier, the button each available plan shows and the fallbacks for
 * unset personal data.
 */
module Profile {
  import opened Common
  import opened Types
  import Catalog

  /** JavaScript truthiness of an optional string: absent and `''` are both
      false. */
  predicate Truthy(s: Option<string>) {
    s.Some? && s.value != ""
  }

  datatype Screen = RedirectToLogin | ProfileView(user: User)

  /** The page is shown only to an authenticated session with a user. */
  function Gate(isAuthenticated: bool, user: Option<User>): (r: Screen)
    ensures r.ProfileView? <==> isAuthenticated && user.Some?
    ensures r.ProfileView? ==> r.user == user.value
  {
    if !isAuthenticated || user.None? then RedirectToLogin else ProfileView(user.value)
  }

  // ---------------------------------------------------------------------
  // Membership tiers

  datatype Palette = Blue | Purple | Orange | Gray

  /** `getCategoryColor`, the badge of the sidebar. */
  function CategoryColor(category: Option<string>): (r: Palette)
    ensures r == Blue <==> category == Some("Basic")
    ensures r == Purple <==> category == Some("Premium")
    ensures r == Orange <==> category == Some("Elite")
  {
    if category == Some("Basic") then Blue
    else if category == Some("Premium") then Purple
    else if category == Some("Elite") then Orange
    else Gray
  }

  /** The icon square of the membership card: anything other than Basic or
      Premium, an absent tier included, is orange. */
  function CardIconColor(category: Option<string>): (r: Palette)
    ensures r != Gray
    ensures r == Orange <==> category != Some("Basic") && category != Some("Premium")
  {
    if category == Some("Basic") then Blue else if category == Some("Premium") then Purple else Orange
  }

  /** The monthly price ladder, used for the current tier and for each listed
      plan: everything that is not Basic or Premium costs 99.99. */
  function TierPrice(category: Option<string>): (r: real)
    ensures r == 29.99 <==> category == Some("Basic")
    ensures r == 59.99 <==> category == Some("Premium")
    ensures r == 99.99 <==> category != Some("Basic") && category != Some("Premium")
  {
    if category == Some("Basic") then 29.99 else if category == Some("Premium") then 59.99 else 99.99
  }

  /** The card title: the tier, or Basic when there is none. */
  function MembershipTitle(category: Option<string>): (r: string)
    ensures Truthy(category) ==> r == category.value + " Membership"
    ensures !Truthy(category) ==> r == "Basic Membership"
  {
    (if Truthy(category) then category.value else "Basic") + " Membership"
  }

  /** A member without a tier is shown as a Basic member but charged the
      Elite price, while a real Basic member sees 29.99; the icon is orange
      too. */
  lemma UntieredCardDisagrees()
    ensures MembershipTitle(None) == MembershipTitle(Some("Basic")) == "Basic Membership"
    ensures TierPrice(None) == 99.99 && TierPrice(Some("Basic")) == 29.99
    ensures CardIconColor(None) == Orange && CardIconColor(Some("Basic")) == Blue
  {
  }

  /** The price ladder climbs along the listed tiers. */
  lemma PricesFollowTierOrder(i: int, j: int)
    requires 0 <= i < j < |Catalog.GymCategories|
    ensures TierPrice(Some(Catalog.GymCategories[i])) < TierPrice(Some(Catalog.GymCategories[j]))
  {
  }

  // ---------------------------------------------------------------------
  // Available plans

  datatype PlanAction = CurrentPlan | Upgrade | SwitchPlan

  /** The plan card's button: none for the member's own tier; Upgrade when
      the member has a tier and the plan comes later in the tier list;
      Switch Plan otherwise. */
  function PlanButton(current: Option<string>, plan: string): (r: PlanAction)
    ensures r == CurrentPlan <==> current == Some(plan)
    ensures r == Upgrade ==> Truthy(current)
  {
    if current == Some(plan) then CurrentPlan
    else if Truthy(current) &&
      IndexOf(Catalog.GymCategories, plan) > IndexOf(Catalog.GymCategories, current.value)
    then Upgrade
    else SwitchPlan
  }

  lemma TierIndices()
    ensures IndexOf(Catalog.GymCategories, "Basic") == 0
    ensures IndexOf(Catalog.GymCategories, "Premium") == 1
    ensures IndexOf(Catalog.GymCategories, "Elite") == 2
  {
    var c := Catalog.GymCategories;
    IndexOfUnique(c, "Basic", 0);
    assert c[..1] == ["Basic"];
    IndexOfUnique(c, "Premium", 1);
    assert c[..2] == ["Basic", "Premium"];
    IndexOfUnique(c, "Elite", 2);
  }

  /** Between listed tiers the button means what it says: Upgrade exactly
      when the plan is pricier than the member's tier, Switch Plan exactly
      when it is cheaper. */
  lemma UpgradeMeansPricier(current: string, plan: string)
    requires current in Catalog.GymCategories && plan in Catalog.GymCategories
    ensures PlanButton(Some(current), plan) == Upgrade <==> TierPrice(Some(plan)) > TierPrice(Some(current))
    ensures PlanButton(Some(current), plan) == SwitchPlan <==> TierPrice(Some(plan)) < TierPrice(Some(current))
  {
    TierIndices();
  }

  /** A member without a tier sees Switch Plan on every card; a member whose
      tier is not listed sees Upgrade on every card. */
  lemma PlanButtonsOffTheList(plan: string, unlisted: string)
    requires plan in Catalog.GymCategories
    requires unlisted != "" && unlisted !in Catalog.GymCategories
    ensures PlanButton(None, plan) == SwitchPlan
    ensures PlanButton(Some(""), plan) == SwitchPlan
    ensures PlanButton(Some(unlisted), plan) == Upgrade
  {
  }

  /** At most one listed card hides its button. */
  lemma OneCurrentPlan(current: Option<string>, i: int, j: int)
    requires 0 <= i < j < |Catalog.GymCategories|
    ensures !(PlanButton(current, Catalog.GymCategories[i]) == CurrentPlan &&
              PlanButton(current, Catalog.GymCategories[j]) == CurrentPlan)
  {
  }

  // ---------------------------------------------------------------------
  // Personal data

  /** `value || fallback` on a string: the empty string is falsy. The
      sidebar heading falls back to "FitPass User", the fields of the
      personal information card to "Not set". */
  function OrElse(value: string, fallback: string): (r: string)
    ensures fallback != "" ==> r != ""
    ensures value != "" ==> r == value
    ensures value == "" ==> r == fallback
  {
    if value != "" then value else fallback
  }

  const UnnamedHeading: string := "FitPass User"
  const NotSet: string := "Not set"

  /** `user.homeLocation?.address || 'Not set'`. */
  function HomeText(home: Option<Location>): (r: string)
    ensures r != ""
    ensures home.Some? && home.value.address != "" ==> r == home.value.address
    ensures home.None? ==> r == NotSet
    ensures home.Some? && home.value.address == "" ==> r == NotSet
  {
    match home
    case None => NotSet
    case Some(loc) => OrElse(loc.address, NotSet)
  }

  /** The sidebar badge shows only for a truthy tier. */
  function SidebarBadge(user: User): (r: Option<(string, Palette)>)
    ensures r.Some? <==> Truthy(user.gymCategory)
    ensures r.Some? ==> r.value.0 == user.gymCategory.value + " Membership"
  {
    if Truthy(user.gymCategory) then Some((user.gymCategory.value + " Membership", CategoryColor(user.gymCategory)))
    else None
  }

  /** An unnamed member is "FitPass User" in the sidebar and "Not set" in the
      form. */
  lemma UnnamedMember(u: User)
    requires u.name == ""
    ensures OrElse(u.name, UnnamedHeading) == "FitPass User" && OrElse(u.name, NotSet) == "Not set"
  {
  }
}
