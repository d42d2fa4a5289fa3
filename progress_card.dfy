/** components/ProgressCard.jsx: how one quota is shown. A limit of -1 means
    unlimited and 0 means disabled; only other limits are divided by. */
module ProgressCard {

  import opened Wrappers

  predicate IsUnlimited(limit: int) { limit == -1 }

  predicate IsDisabled(limit: int) { limit == 0 }

  /** `displayLimit`: the string "∞" or "0", or the limit as a number. */
  datatype LimitText = Symbol(text: string) | Number(n: int)

  function DisplayLimit(limit: int): (d: LimitText)
    ensures d == Symbol("∞") <==> IsUnlimited(limit)
    ensures d == Symbol("0") <==> IsDisabled(limit)
    ensures !IsUnlimited(limit) && !IsDisabled(limit) ==> d == Number(limit)
  {
    if IsUnlimited(limit) then Symbol("∞")
    else if IsDisabled(limit) then Symbol("0")
    else Number(limit)
  }

  /** `percentage`, in exact arithmetic: 0 for an unlimited or disabled
      quota, otherwise the `p` with `p * limit == used * 100`. */
  function Percentage(used: int, limit: int): (p: real)
    ensures IsUnlimited(limit) || IsDisabled(limit) ==> p == 0.0
    ensures !IsUnlimited(limit) && !IsDisabled(limit) ==> p * (limit as real) == (used as real) * 100.0
  {
    if IsUnlimited(limit) || IsDisabled(limit) then 0.0
    else (used as real / limit as real) * 100.0
  }

  /** What the card renders besides its label. */
  datatype CardView = CardView(
    indicator: string,       // class of the progress ring's stroke
    value: real,             // the ring's value
    showValueLabel: bool,    // the ring prints its percentage
    overlay: Option<string>, // the big "∞" / "0" over the ring
    displayLimit: LimitText) // the "of ..." part of the badge

  function Card(used: int, limit: int): (v: CardView)
    ensures v.showValueLabel <==> !IsUnlimited(limit) && !IsDisabled(limit)
    ensures v.overlay.None? <==> v.showValueLabel
    ensures v.overlay == Some("∞") <==> IsUnlimited(limit)
    ensures v.overlay == Some("0") <==> IsDisabled(limit)
    ensures v.indicator == "stroke-green-500" <==> IsUnlimited(limit)
    ensures v.indicator == "stroke-gray-400" <==> IsDisabled(limit)
    ensures v.indicator == "stroke-black" <==> v.showValueLabel
    ensures v.value == Percentage(used, limit) && v.displayLimit == DisplayLimit(limit)
  {
    var unlimited := IsUnlimited(limit);
    var disabled := IsDisabled(limit);
    CardView(
      if unlimited then "stroke-green-500" else if disabled then "stroke-gray-400" else "stroke-black",
      Percentage(used, limit),
      !unlimited && !disabled,
      if unlimited || disabled then Some(if unlimited then "∞" else "0") else None,
      DisplayLimit(limit))
  }

  /** Wherever a card shows the big overlay, its badge shows the same
      symbol; a bounded card shows the limit as a number and no overlay. */
  lemma OverlayMatchesBadge(used: int, limit: int)
    ensures var v := Card(used, limit);
            && (v.overlay.Some? ==> v.displayLimit == Symbol(v.overlay.value))
            && (v.overlay.None? ==> v.displayLimit == Number(limit))
  {
  }

  /** The sentinels are the two literal values: -1 reads as unlimited, 0 as
      disabled, and every other limit, negative ones included, is divided by. */
  lemma SentinelValues(used: int, limit: int)
    ensures Card(used, -1).overlay == Some("∞") && Card(used, -1).value == 0.0
    ensures Card(used, 0).overlay == Some("0") && Card(used, 0).value == 0.0
    ensures limit != -1 && limit != 0 ==> Card(used, limit).overlay.None? && Card(used, limit).showValueLabel
  {
  }

  /** The two sentinels never hold together. */
  lemma SentinelsExclusive(limit: int)
    ensures !(IsUnlimited(limit) && IsDisabled(limit))
  {
  }

  /** A bounded quota that is exhausted reads 100%, an unused one 0%, and a
      usage within the limit stays within 0% to 100%. */
  lemma {:induction false} BoundedPercentage(used: int, limit: int)
    requires limit > 0
    ensures used == limit ==> Percentage(used, limit) == 100.0
    ensures used == 0 ==> Percentage(used, limit) == 0.0
    ensures 0 <= used <= limit ==> 0.0 <= Percentage(used, limit) <= 100.0
  {
    var p := Percentage(used, limit);
    var l := limit as real;
    assert p * l == (used as real) * 100.0;
    if 0 <= used <= limit {
      assert p * l >= 0.0;
      assert (100.0 - p) * l >= 0.0;
    }
    if used == limit {
      assert (p - 100.0) * l == 0.0;
    }
    if used == 0 {
      assert p * l == 0.0;
    }
  }
}
