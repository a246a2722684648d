/** The EcoTrack rewards store page (`client/pages/Rewards.tsx`): a fixed
    catalogue, category filtering, redeemability, the next milestone and the
    redeem button. The page's point balance is the constant 1250. */
module Rewards {
  import opened Wrappers
  import opened Seqs
  import opened Text

  datatype Reward = Reward(id: nat, name: string, points: int, category: string, description: string, stock: int)

  datatype Milestone = Milestone(points: int, reward: string, achieved: bool)

  const UserPoints: int := 1250

  const AllCategories: string := "All"

  const Catalog: seq<Reward> := [
    Reward(1, "Eco-Friendly Water Bottle", 500, "Lifestyle", "Reusable stainless steel water bottle", 25),
    Reward(2, "Organic Cotton T-Shirt", 800, "Clothing", "100% organic cotton t-shirt with eco design", 15),
    Reward(3, "Plant a Tree Certificate", 300, "Environment", "We'll plant a tree in your name", 100),
    Reward(4, "Bike Sharing Credits", 400, "Transport", "1 month of free bike sharing", 50),
    Reward(5, "Eco Phone Case", 600, "Tech", "Biodegradable phone case", 20),
    Reward(6, "Coffee Shop Voucher", 200, "Food", "$10 voucher for sustainable coffee", 40)
  ]

  const Milestones: seq<Milestone> := [
    Milestone(100, "Bronze Badge", true),
    Milestone(500, "Silver Badge", true),
    Milestone(1000, "Gold Badge", true),
    Milestone(2000, "Platinum Badge", false),
    Milestone(5000, "Diamond Badge", false)
  ]

  /** `canRedeem`: the balance covers the cost. */
  predicate CanRedeem(userPoints: int, cost: int) {
    userPoints >= cost
  }

  predicate InCategory(r: Reward, category: string) {
    category == AllCategories || r.category == category
  }

  /** `filteredRewards`: the catalogue entries of the chosen category, in
      catalogue order. */
  function FilteredRewards(catalog: seq<Reward>, category: string): (r: seq<Reward>)
    ensures IsSubsequence(r, catalog)
    ensures forall i :: 0 <= i < |r| ==> InCategory(r[i], category)
    ensures forall i :: 0 <= i < |catalog| && InCategory(catalog[i], category) ==> catalog[i] in r
    ensures forall i :: 0 <= i < |catalog| ==>
      multiset(r)[catalog[i]] == if InCategory(catalog[i], category) then multiset(catalog)[catalog[i]] else 0
  {
    Filter(catalog, (x: Reward) => InCategory(x, category))
  }

  /** The "All" tab lists the whole catalogue unchanged. */
  lemma AllCategoryKeepsCatalog(catalog: seq<Reward>)
    ensures FilteredRewards(catalog, AllCategories) == catalog
  {
    FilterAll(catalog, (x: Reward) => InCategory(x, AllCategories));
  }

  /** Position `k` holds the first milestone not yet achieved. */
  predicate FirstUnachievedAt(milestones: seq<Milestone>, k: int) {
    0 <= k < |milestones| && !milestones[k].achieved && forall j :: 0 <= j < k ==> milestones[j].achieved
  }

  /** `nextMilestone`: the first milestone not yet achieved, if any. */
  function NextMilestone(milestones: seq<Milestone>): (m: Option<Milestone>)
    ensures m.None? <==> forall i :: 0 <= i < |milestones| ==> milestones[i].achieved
    ensures m.Some? ==> !m.value.achieved && exists k :: 0 <= k < |milestones| && FirstUnachievedAt(milestones, k) && milestones[k] == m.value
  {
    match FindIndex(milestones, (x: Milestone) => !x.achieved)
    case None => None
    case Some(k) => Some(milestones[k])
  }

  /** "N points to go" under the milestone bar. */
  function PointsToGo(m: Milestone, userPoints: int): (n: int)
    ensures userPoints + n == m.points
  {
    m.points - userPoints
  }

  /** The redeem button's `disabled`. */
  predicate RedeemDisabled(userPoints: int, r: Reward) {
    !CanRedeem(userPoints, r.points) || r.stock == 0
  }

  /** The redeem button's label: a missing balance is reported before an
      empty stock. */
  datatype RedeemLabel = Need(missing: int) | OutOfStock | RedeemNow {
    function Text(): string {
      match this
      case Need(n) => "Need " + IntToDecimal(n) + " more points"
      case OutOfStock => "Out of Stock"
      case RedeemNow => "Redeem Now"
    }
  }

  /** The label of a reward's button: "Redeem Now" exactly when the button
      is enabled. */
  function RedeemLabelFor(userPoints: int, r: Reward): (l: RedeemLabel)
    ensures l == RedeemNow <==> !RedeemDisabled(userPoints, r)
    ensures l.Need? ==> l.missing == r.points - userPoints
  {
    if !CanRedeem(userPoints, r.points) then Need(r.points - userPoints)
    else if r.stock == 0 then OutOfStock
    else RedeemNow
  }

  /** The button is disabled exactly when its label is not "Redeem Now"; it
      asks for more points exactly when the balance is short, and then for
      the shortfall itself, a positive amount that makes up the difference. */
  lemma RedeemButtonConsistent(userPoints: int, r: Reward)
    ensures RedeemDisabled(userPoints, r) <==> RedeemLabelFor(userPoints, r) != RedeemNow
    ensures RedeemLabelFor(userPoints, r).Need? <==> !CanRedeem(userPoints, r.points)
    ensures RedeemLabelFor(userPoints, r).Need? ==>
      RedeemLabelFor(userPoints, r).missing > 0 && CanRedeem(userPoints + RedeemLabelFor(userPoints, r).missing, r.points)
    ensures RedeemLabelFor(userPoints, r).Need? ==>
      RedeemLabelFor(userPoints, r).missing == r.points - userPoints
      && RedeemLabelFor(userPoints, r).Text() == "Need " + IntToDecimal(r.points - userPoints) + " more points"
    ensures RedeemLabelFor(userPoints, r) == OutOfStock <==> CanRedeem(userPoints, r.points) && r.stock == 0
  {
  }

  /** The three labels read differently. */
  lemma RedeemLabelTextsDiffer(a: RedeemLabel, b: RedeemLabel)
    requires a.Need? && !b.Need?
    ensures a.Text() != b.Text()
  {
    var s := a.Text();
    assert s[..5] == "Need ";
    assert b.Text()[..5] != "Need ";
  }

  /** With the page's balance of 1250 every catalogue reward is redeemable,
      and the next milestone is the Platinum Badge, 750 points away. */
  lemma PageFigures()
    ensures forall i :: 0 <= i < |Catalog| ==> RedeemLabelFor(UserPoints, Catalog[i]) == RedeemNow
    ensures NextMilestone(Milestones) == Some(Milestone(2000, "Platinum Badge", false))
    ensures PointsToGo(NextMilestone(Milestones).value, UserPoints) == 750
  {
    var m := NextMilestone(Milestones);
    var k :| 0 <= k < |Milestones| && FirstUnachievedAt(Milestones, k) && Milestones[k] == m.value;
    assert k == 3;
  }
}
