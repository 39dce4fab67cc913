/** The estimated total cost of a trip: average nightly price of the selected hotels
    (200 when none is selected) times the number of nights times the number of guests. */
module Cost {
  import opened Hotels

  /** The average used when no hotel survives the budget filter. */
  const DefaultAveragePrice: real := 200.0

  const SecondsPerDay: int := 86400

  /** `sum(h.price_per_night for h in hs)`. */
  function SumPrices(hs: seq<Hotel>): real {
    if hs == [] then 0.0 else hs[0].pricePerNight + SumPrices(hs[1..])
  }

  /** The sum of a concatenation is the sum of the sums. */
  lemma {:induction false} SumPricesAppend(a: seq<Hotel>, b: seq<Hotel>)
    ensures SumPrices(a + b) == SumPrices(a) + SumPrices(b)
  {
    if a == [] {
      assert a + b == b;
    } else {
      assert (a + b)[0] == a[0];
      assert (a + b)[1..] == a[1..] + b;
      SumPricesAppend(a[1..], b);
    }
  }

  /** Average nightly price of `hs`, or the default when `hs` is empty; never a division by zero. */
  function AveragePrice(hs: seq<Hotel>): (avg: real)
    ensures hs == [] ==> avg == DefaultAveragePrice
    ensures hs != [] ==> avg * (|hs| as real) == SumPrices(hs)
  {
    if hs == [] then DefaultAveragePrice else SumPrices(hs) / (|hs| as real)
  }

  lemma {:induction false} SumAtLeast(hs: seq<Hotel>, lo: real)
    requires forall h :: h in hs ==> lo <= h.pricePerNight
    ensures lo * (|hs| as real) <= SumPrices(hs)
  {
    if hs != [] {
      assert hs[0] in hs;
      SumAtLeast(hs[1..], lo);
    }
  }

  lemma {:induction false} SumAtMost(hs: seq<Hotel>, hi: real)
    requires forall h :: h in hs ==> h.pricePerNight <= hi
    ensures SumPrices(hs) <= hi * (|hs| as real)
  {
    if hs != [] {
      assert hs[0] in hs;
      SumAtMost(hs[1..], hi);
    }
  }

  lemma {:induction false} SumBelow(hs: seq<Hotel>, hi: real)
    requires hs != []
    requires forall h :: h in hs ==> h.pricePerNight < hi
    ensures SumPrices(hs) < hi * (|hs| as real)
  {
    assert hs[0] in hs;
    if |hs| > 1 {
      SumBelow(hs[1..], hi);
    }
  }

  lemma {:induction false} SumAbove(hs: seq<Hotel>, lo: real)
    requires hs != []
    requires forall h :: h in hs ==> h.pricePerNight > lo
    ensures SumPrices(hs) > lo * (|hs| as real)
  {
    assert hs[0] in hs;
    if |hs| > 1 {
      SumAbove(hs[1..], lo);
    }
  }

  /** The average of a non-empty selection lies between its cheapest and dearest prices. */
  lemma AverageWithin(hs: seq<Hotel>, lo: real, hi: real)
    requires hs != []
    requires forall h :: h in hs ==> lo <= h.pricePerNight <= hi
    ensures lo <= AveragePrice(hs) <= hi
  {
    SumAtLeast(hs, lo);
    SumAtMost(hs, hi);
  }

  /** A non-empty selection of hotels all priced below `hi` averages strictly less than `hi`. */
  lemma AverageBelow(hs: seq<Hotel>, hi: real)
    requires forall h :: h in hs ==> h.pricePerNight < hi
    ensures hs != [] ==> AveragePrice(hs) < hi
  {
    if hs != [] {
      SumBelow(hs, hi);
    }
  }

  lemma AverageAbove(hs: seq<Hotel>, lo: real)
    requires forall h :: h in hs ==> h.pricePerNight > lo
    ensures hs != [] ==> AveragePrice(hs) > lo
  {
    if hs != [] {
      SumAbove(hs, lo);
    }
  }

  /** Whole days between two instants given in seconds, rounded down as a time
      difference's day count is: negative when checkout precedes checkin. */
  function Nights(checkin: int, checkout: int): (n: int)
    ensures n * SecondsPerDay <= checkout - checkin < n * SecondsPerDay + SecondsPerDay
  {
    (checkout - checkin) / SecondsPerDay
  }

  /** For two calendar dates (midnight instants), the night count is the difference of days. */
  lemma NightsBetweenDates(checkinDay: int, checkoutDay: int)
    ensures Nights(checkinDay * SecondsPerDay, checkoutDay * SecondsPerDay) == checkoutDay - checkinDay
  {
    var d := checkoutDay - checkinDay;
    assert checkoutDay * SecondsPerDay - checkinDay * SecondsPerDay == d * SecondsPerDay;
  }

  /** Nothing checks the order of the dates: a checkout before the checkin gives negative nights. */
  lemma NightsNegativeWhenReversed(checkin: int, checkout: int)
    requires checkout < checkin
    ensures Nights(checkin, checkout) < 0
  {
  }

  /** `avg_price * nights * guests`, kept exact (the rounding to cents is not modelled). */
  function EstimatedCost(hs: seq<Hotel>, nights: int, guests: int): (cost: real)
    ensures hs == [] ==> cost == DefaultAveragePrice * (nights as real) * (guests as real)
    ensures hs != [] ==> cost * (|hs| as real) == SumPrices(hs) * (nights as real) * (guests as real)
  {
    var avg := AveragePrice(hs);
    var ng := (nights as real) * (guests as real);
    assert avg * (nights as real) * (guests as real) == avg * ng;
    assert hs != [] ==> avg * ng * (|hs| as real) == (avg * (|hs| as real)) * ng;
    avg * (nights as real) * (guests as real)
  }

  lemma ProductNonNegative(a: real, b: real, c: real)
    requires a >= 0.0 && b >= 0.0 && c >= 0.0
    ensures a * b * c >= 0.0
  {
    assert a * b >= 0.0;
  }

  /** With no negative prices, nights or guests, the estimate is never negative. */
  lemma CostNonNegative(hs: seq<Hotel>, nights: int, guests: int)
    requires nights >= 0 && guests >= 0
    requires forall h :: h in hs ==> h.pricePerNight >= 0.0
    ensures EstimatedCost(hs, nights, guests) >= 0.0
  {
    var avg := AveragePrice(hs);
    if hs != [] {
      SumAtLeast(hs, 0.0);
    }
    ProductNonNegative(avg, nights as real, guests as real);
  }

  /** The unchecked reversed stay: positive prices and guests with negative nights give a
      negative estimate, including when no hotel was selected and the default 200 is used. */
  lemma CostNegativeWhenReversed(hs: seq<Hotel>, nights: int, guests: int)
    requires nights < 0 && guests > 0
    requires forall h :: h in hs ==> h.pricePerNight > 0.0
    ensures EstimatedCost(hs, nights, guests) < 0.0
  {
    AverageAbove(hs, 0.0);
    var avg := AveragePrice(hs);
    assert avg > 0.0;
    assert avg * (nights as real) < 0.0;
  }

  /** With nothing selected, the estimate is exactly 200 per night per guest. */
  lemma CostOfEmptySelection(nights: int, guests: int)
    ensures EstimatedCost([], nights, guests) == 200.0 * (nights as real) * (guests as real)
  {
  }
}
