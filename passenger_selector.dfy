/**
 * The passenger selector: four bounded counters (adults, children, infants,
 * seniors), each paired with a list of name slots that grows by appending
 * blank names and shrinks by dropping the last ones, the total shown on the
 * trigger, and the dialog's open/apply/cancel state.
 */
module PassengerSelector {
  import opened Wrappers
  import opened Text

  datatype PassengerType = Adults | Children | Infants | Seniors

  /** One value per passenger type: the `counts` record and the `passengerDetails` record. */
  datatype PerType<T> = PerType(adults: T, children: T, infants: T, seniors: T)
  {
    function Get(t: PassengerType): T
    {
      match t
      case Adults => adults
      case Children => children
      case Infants => infants
      case Seniors => seniors
    }

    /** `{ ...record, [t]: v }`: only the entry for `t` changes. */
    function With(t: PassengerType, v: T): (r: PerType<T>)
      ensures r.Get(t) == v
      ensures forall u :: u != t ==> r.Get(u) == Get(u)
    {
      match t
      case Adults => this.(adults := v)
      case Children => this.(children := v)
      case Infants => this.(infants := v)
      case Seniors => this.(seniors := v)
    }
  }

  type PassengerCounts = PerType<nat>

  /** At least one adult travels; the other types may be absent. */
  function MinCount(t: PassengerType): nat
  {
    if t == Adults then 1 else 0
  }

  const MaxCount: nat := 9

  /** `Math.max(min, Math.min(9, v))`. */
  function Clamp(t: PassengerType, v: int): (r: nat)
    ensures MinCount(t) <= r <= MaxCount
    ensures MinCount(t) <= v <= MaxCount ==> r == v
    ensures v < MinCount(t) ==> r == MinCount(t)
    ensures v > MaxCount ==> r == MaxCount
  {
    var upper := if v < MaxCount then v else MaxCount;
    if upper < MinCount(t) then MinCount(t) else upper
  }

  predicate InRange(t: PassengerType, count: int)
  {
    MinCount(t) <= count <= MaxCount
  }

  /** The "-" button is disabled at 0, and for adults at 1. */
  predicate MinusDisabled(t: PassengerType, count: int)
    ensures MinusDisabled(t, count) <==> count <= MinCount(t)
  {
    (t == Adults && count <= 1) || count <= 0
  }

  /** The "+" button is disabled at 9. */
  predicate PlusDisabled(count: int)
    ensures PlusDisabled(count) <==> count >= MaxCount
  {
    count >= 9
  }

  /** For a count within bounds, a button is disabled exactly when clamping would leave the count as it is. */
  lemma ButtonsAgreeWithClamp(t: PassengerType, count: nat)
    requires InRange(t, count)
    ensures MinusDisabled(t, count) <==> Clamp(t, count - 1) == count
    ensures PlusDisabled(count) <==> Clamp(t, count + 1) == count
  {
  }

  /** `Object.values(counts).reduce((sum, count) => sum + count, 0)`. */
  function TotalPassengers(c: PassengerCounts): (r: nat)
    ensures r == c.Get(Adults) + c.Get(Children) + c.Get(Infants) + c.Get(Seniors)
    ensures forall t :: c.Get(t) <= r
  {
    c.adults + c.children + c.infants + c.seniors
  }

  /** Changing one count changes the total by exactly the difference. */
  lemma TotalAfterChange(c: PassengerCounts, t: PassengerType, v: nat)
    ensures TotalPassengers(c.With(t, v)) == TotalPassengers(c) - c.Get(t) + v
  {
  }

  /** With every count within bounds there are between 1 and 36 passengers. */
  lemma TotalBounds(c: PassengerCounts)
    requires forall t :: InRange(t, c.Get(t))
    ensures 1 <= TotalPassengers(c) <= 4 * MaxCount
  {
    assert InRange(Adults, c.Get(Adults)) && InRange(Children, c.Get(Children));
    assert InRange(Infants, c.Get(Infants)) && InRange(Seniors, c.Get(Seniors));
  }

  /** The trigger's text: `${total} Passenger` when the total is 1, `${total} Passengers` otherwise. */
  function PassengerLabel(total: nat): (r: string)
    ensures ParseInt(r) == Some(total)
    ensures r[|r| - 1] == 's' <==> total != 1
  {
    ParseIntDecimal(total, if total == 1 then " Passenger" else " Passengers");
    DecimalString(total) + (if total == 1 then " Passenger" else " Passengers")
  }

  /** `Array(n).fill("")`. */
  function Blanks(n: nat): (r: seq<string>)
    ensures |r| == n
    ensures forall i :: 0 <= i < n ==> r[i] == ""
  {
    if n == 0 then [] else Blanks(n - 1) + [""]
  }

  /**
   * The name list after a count change: an increase appends blank names up
   * to the new count, a decrease drops names from the end down to it.
   */
  function ResizeSlots(names: seq<string>, target: nat, increment: int): (r: seq<string>)
    ensures increment > 0 ==> |r| == if |names| < target then target else |names|
    ensures increment < 0 ==> |r| == if |names| > target then target else |names|
    ensures increment == 0 ==> r == names
    ensures forall i :: 0 <= i < |r| ==> r[i] == if i < |names| then names[i] else ""
  {
    if increment > 0 && |names| < target then names + Blanks(target - |names|)
    else if increment < 0 && |names| > target then names[..target]
    else names
  }

  /** Adding `k` slots and then shrinking back to the original length restores the names. */
  lemma GrowThenShrink(names: seq<string>, k: nat)
    ensures ResizeSlots(ResizeSlots(names, |names| + k, 1), |names|, -1) == names
  {
    var grown := ResizeSlots(names, |names| + k, 1);
    assert grown[..|names|] == names;
  }

  /** Under either enabled button, the slots keep matching the count. */
  lemma ResizeMatchesCount(t: PassengerType, count: nat, names: seq<string>, increment: int)
    requires |names| == count
    requires (increment == 1 && !PlusDisabled(count)) || (increment == -1 && !MinusDisabled(t, count))
    ensures |ResizeSlots(names, Clamp(t, count + increment), increment)| == Clamp(t, count + increment)
  {
  }

  class PassengerSelectorState {
    var open: bool
    var counts: PassengerCounts
    var activeTab: PassengerType
    var details: PerType<seq<string>>

    /** Every type has exactly as many name slots as passengers. */
    ghost predicate SlotsMatch()
      reads this
    {
      forall t :: |details.Get(t)| == counts.Get(t)
    }

    /** Opened from the `value` prop: the dialog closed, the adults tab active, one blank name per passenger. */
    constructor (value: PassengerCounts)
      ensures SlotsMatch()
      ensures !open && counts == value && activeTab == Adults
      ensures details == PerType(Blanks(value.adults), Blanks(value.children), Blanks(value.infants), Blanks(value.seniors))
    {
      open := false;
      counts := value;
      activeTab := Adults;
      details := PerType(Blanks(value.adults), Blanks(value.children), Blanks(value.infants), Blanks(value.seniors));
    }

    /**
     * `handleCountChange`: clamp the new count, then push blank names while
     * the list is too short (on an increase) or pop while it is too long (on
     * a decrease). Only the entry for `t` changes.
     */
    method CountChange(t: PassengerType, increment: int)
      modifies this
      ensures counts == old(counts).With(t, Clamp(t, old(counts).Get(t) + increment))
      ensures details == old(details).With(t, ResizeSlots(old(details).Get(t), counts.Get(t), increment))
      ensures open == old(open) && activeTab == old(activeTab)
    {
      var newCount := Clamp(t, counts.Get(t) + increment);
      var original := details.Get(t);
      var newNames := original;
      if increment > 0 {
        while |newNames| < newCount
          invariant |original| <= |newNames| <= (if |original| < newCount then newCount else |original|)
          invariant newNames == original + Blanks(|newNames| - |original|)
          decreases newCount - |newNames|
        {
          newNames := newNames + [""];
          assert Blanks(|newNames| - |original|) == Blanks(|newNames| - 1 - |original|) + [""];
        }
        assert newNames == ResizeSlots(original, newCount, increment);
      } else if increment < 0 {
        while |newNames| > newCount
          invariant (if |original| > newCount then newCount else |original|) <= |newNames| <= |original|
          invariant newNames == original[..|newNames|]
          decreases |newNames|
        {
          newNames := newNames[..|newNames| - 1];
        }
        assert newNames == ResizeSlots(original, newCount, increment);
      }
      details := details.With(t, newNames);
      counts := counts.With(t, newCount);
    }

    /** `handleNameChange`: exactly the slot at `index` of type `t` takes the new name. */
    method NameChange(t: PassengerType, index: nat, name: string)
      requires index < |details.Get(t)|
      modifies this
      ensures details == old(details).With(t, old(details).Get(t)[index := name])
      ensures counts == old(counts) && open == old(open) && activeTab == old(activeTab)
    {
      details := details.With(t, details.Get(t)[index := name]);
    }

    /** `handleApply`: hand the current counts to `onChange` and close. */
    method Apply() returns (emitted: PassengerCounts)
      modifies this
      ensures emitted == counts && counts == old(counts)
      ensures !open && details == old(details) && activeTab == old(activeTab)
    {
      emitted := counts;
      open := false;
    }

    /** "Cancel": close without emitting anything. */
    method Cancel()
      modifies this
      ensures !open
      ensures counts == old(counts) && details == old(details) && activeTab == old(activeTab)
    {
      open := false;
    }

    /** The dialog's `onOpenChange`. */
    method SetOpen(b: bool)
      modifies this
      ensures open == b
      ensures counts == old(counts) && details == old(details) && activeTab == old(activeTab)
    {
      open := b;
    }

    /** The tabs' `onValueChange`. */
    method SetActiveTab(t: PassengerType)
      modifies this
      ensures activeTab == t
      ensures counts == old(counts) && details == old(details) && open == old(open)
    {
      activeTab := t;
    }

    /** The shown count of a type is a valid name-slot bound once any button has been used on it. */
    method CountChangeKeepsSlots(t: PassengerType, increment: int)
      requires SlotsMatch()
      requires (increment == 1 && !PlusDisabled(counts.Get(t))) || (increment == -1 && !MinusDisabled(t, counts.Get(t)))
      modifies this
      ensures SlotsMatch()
      ensures InRange(t, counts.Get(t))
      ensures counts == old(counts).With(t, Clamp(t, old(counts).Get(t) + increment))
      ensures details == old(details).With(t, ResizeSlots(old(details).Get(t), counts.Get(t), increment))
      ensures open == old(open) && activeTab == old(activeTab)
    {
      ResizeMatchesCount(t, counts.Get(t), details.Get(t), increment);
      CountChange(t, increment);
    }
  }
}
