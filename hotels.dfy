/** The mock hotel table, the destination lookup with its fallback list, and the
    budget-tier price filter of the trip search. */
module Hotels {
  import opened Text

  /** A hotel listing. Prices and ratings are exact reals; the random `id` is not modelled. */
  datatype Hotel = Hotel(
    name: string,
    location: string,
    pricePerNight: real,
    rating: real,
    amenities: seq<string>,
    imageUrl: string,
    availability: bool)

  const ImageA := "https://images.unsplash.com/photo-1564501049412-61c2a3083791?w=400"
  const ImageB := "https://images.unsplash.com/photo-1551882547-ff40c63fe5fa?w=400"
  const ImageC := "https://images.unsplash.com/photo-1566073771259-6a8506099945?w=400"

  const ParisHotels: seq<Hotel> := [
    Hotel("Hotel des Grands Boulevards", "Central Paris", 280.0, 4.5,
          ["WiFi", "Restaurant", "Bar", "24h Reception"], ImageA, true),
    Hotel("Le Meurice", "Tuileries", 850.0, 4.9,
          ["Spa", "Michelin Restaurant", "Concierge", "Fitness Center"], ImageB, true),
    Hotel("Hotel Malte Opera", "Opera District", 195.0, 4.2,
          ["WiFi", "Business Center", "Pet Friendly"], ImageC, true)]

  const TokyoHotels: seq<Hotel> := [
    Hotel("Aman Tokyo", "Otemachi", 1200.0, 4.8,
          ["Spa", "Pool", "Traditional Tea Service", "City Views"],
          "https://images.unsplash.com/photo-1540959733332-eab4deabeeaf?w=400", true),
    Hotel("Shibuya Excel Hotel Tokyu", "Shibuya", 320.0, 4.3,
          ["WiFi", "Restaurant", "Shopping Mall Access"],
          "https://images.unsplash.com/photo-1549294413-26f195200c16?w=400", true),
    Hotel("Hotel Gracery Shinjuku", "Shinjuku", 180.0, 4.1,
          ["Godzilla Views", "WiFi", "Restaurant"],
          "https://images.unsplash.com/photo-1571896349842-33c89424de2d?w=400", true)]

  const NewYorkHotels: seq<Hotel> := [
    Hotel("The Plaza", "Fifth Avenue", 750.0, 4.7,
          ["Spa", "Shopping", "Fine Dining", "Central Park Views"], ImageC, true),
    Hotel("Pod Hotels Times Square", "Times Square", 220.0, 4.2,
          ["Modern Pods", "Rooftop Bar", "Fitness Center"], ImageB, true),
    Hotel("1 Hotels Brooklyn Bridge", "Brooklyn", 385.0, 4.6,
          ["Eco-Friendly", "Bridge Views", "Farm-to-Table Restaurant"], ImageA, true)]

  /** The per-destination hotel lists, keyed as written in the table. */
  const MockHotels: map<string, seq<Hotel>> :=
    map["paris" := ParisHotels, "tokyo" := TokyoHotels, "new york" := NewYorkHotels]

  /** The list used for any destination key missing from `MockHotels`. */
  const FallbackHotels: seq<Hotel> := [
    Hotel("Grand Hotel", "City Center", 250.0, 4.3, ["WiFi", "Restaurant", "Pool"], ImageC, true),
    Hotel("Budget Inn", "Downtown", 120.0, 3.8, ["WiFi", "Breakfast"], ImageB, true)
  ]

  /** The destination lower-cased with every space removed. */
  function DestinationKey(destination: string): (k: string)
    ensures ' ' !in k
    ensures forall c :: c in k ==> !IsAsciiUpper(c)
  {
    var lowered := Lower(destination);
    assert forall c :: c in lowered ==> !IsAsciiUpper(c);
    RemoveSpacesKeepsOthers(lowered);
    RemoveSpaces(lowered)
  }

  /** The key of a concatenation is the concatenation of the keys: the key is built
      character by character, in order. */
  lemma DestinationKeyAppend(a: string, b: string)
    ensures DestinationKey(a + b) == DestinationKey(a) + DestinationKey(b)
  {
    LowerAppend(a, b);
    RemoveSpacesAppend(Lower(a), Lower(b));
  }

  /** The key of one character: a space gives nothing, any other character its lower case.
      With `DestinationKeyAppend` this fixes the key of every destination. */
  lemma DestinationKeyChar(c: char)
    ensures DestinationKey([c]) == if c == ' ' then [] else [LowerChar(c)]
  {
    assert Lower([c]) == [LowerChar(c)];
  }

  /** The candidate hotels for a destination: its table entry, or the fallback list. */
  function Candidates(destination: string): (hs: seq<Hotel>)
    ensures hs == FallbackHotels || hs in MockHotels.Values
    ensures DestinationKey(destination) in MockHotels ==> hs == MockHotels[DestinationKey(destination)]
    ensures DestinationKey(destination) !in MockHotels ==> hs == FallbackHotels
  {
    var key := DestinationKey(destination);
    if key in MockHotels then MockHotels[key] else FallbackHotels
  }

  /** The "new york" entry can never be selected: a key never contains a space,
      so every destination reaches either "paris", "tokyo" or the fallback list. */
  lemma NewYorkEntryUnreachable(destination: string)
    ensures DestinationKey(destination) != "new york"
    ensures Candidates(destination) != NewYorkHotels
    ensures Candidates(destination) in [ParisHotels, TokyoHotels, FallbackHotels]
  {
    assert "new york"[3] == ' ';
    assert NewYorkHotels[0].pricePerNight == 750.0;
    assert ParisHotels[0].pricePerNight == 280.0;
    assert TokyoHotels[0].pricePerNight == 1200.0;
    assert FallbackHotels[0].pricePerNight == 250.0;
  }

  /** A search for "New York" is answered from the fallback list: its key is the
      seven-letter "newyork", which is not a key of the table. */
  lemma NewYorkSearchFallsBack()
    ensures Candidates("New York") == FallbackHotels
  {
    NewYorkHotelKey();
  }

  lemma NewYorkHotelKey()
    ensures |DestinationKey("New York")| == 7
  {
    NewYorkLowered();
    assert |RemoveSpaces("new york")| == 7;
  }

  /** The elements of `s` satisfying `p`, in their original order. */
  function Keep(s: seq<Hotel>, p: Hotel -> bool): (r: seq<Hotel>)
    ensures |r| <= |s|
    ensures forall h :: multiset(r)[h] == if p(h) then multiset(s)[h] else 0
    ensures forall h :: h in r <==> h in s && p(h)
  {
    if s == [] then []
    else
      assert s == [s[0]] + s[1..];
      if p(s[0]) then [s[0]] + Keep(s[1..], p) else Keep(s[1..], p)
  }

  /** Filtering keeps the input order: filtering a concatenation concatenates the parts. */
  lemma {:induction false} KeepAppend(a: seq<Hotel>, b: seq<Hotel>, p: Hotel -> bool)
    ensures Keep(a + b, p) == Keep(a, p) + Keep(b, p)
  {
    if a == [] {
      assert a + b == b;
    } else {
      assert (a + b)[0] == a[0];
      assert (a + b)[1..] == a[1..] + b;
      KeepAppend(a[1..], b, p);
    }
  }

  const LowBudgetCeiling: real := 200.0
  const HighBudgetFloor: real := 400.0

  /** Whether a nightly price is admitted by a budget tier. */
  predicate InTier(budget: string, price: real) {
    if budget == "low" then price < LowBudgetCeiling
    else if budget == "high" then price > HighBudgetFloor
    else true
  }

  /** The budget-tier filter: "low" keeps prices strictly below 200, "high" keeps
      prices strictly above 400, and any other tier string keeps every hotel. */
  function FilterByBudget(hotels: seq<Hotel>, budget: string): (r: seq<Hotel>)
    ensures budget == "low" ==> forall h :: h in r <==> h in hotels && h.pricePerNight < LowBudgetCeiling
    ensures budget == "high" ==> forall h :: h in r <==> h in hotels && h.pricePerNight > HighBudgetFloor
    ensures budget != "low" && budget != "high" ==> r == hotels
    ensures forall h :: multiset(r)[h] == if InTier(budget, h.pricePerNight) then multiset(hotels)[h] else 0
  {
    if budget == "low" then Keep(hotels, (h: Hotel) => h.pricePerNight < LowBudgetCeiling)
    else if budget == "high" then Keep(hotels, (h: Hotel) => h.pricePerNight > HighBudgetFloor)
    else hotels
  }
}
