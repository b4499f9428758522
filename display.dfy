/** The pure helpers of the dashboard's root component and cards
    (src/App.js): temperature-unit conversion and the display copies built
    with it, the weather classification behind the page theme and the
    mascot, the temperature icons, the 12-hour clock label, the alert
    carousel's index step and the title of a picked city. */
module Display {
  import opened Wrappers
  import opened JsBuiltins
  import opened Api

  // ---------------------------------------------------------------- units

  /** The temperature unit the user toggles: 'C' or 'F'. */
  datatype TempUnit = Celsius | Fahrenheit

  /** `toUnit`: an absent value passes through; a present one is rounded to
      the nearest whole degree of the chosen unit. */
  function ToUnit(celsius: Option<real>, unit: TempUnit): (r: Option<int>)
    ensures r.None? <==> celsius.None?
    ensures r.Some? && unit == Celsius ==>
      celsius.value - 1.0 / 2.0 < r.value as real <= celsius.value + 1.0 / 2.0
    ensures r.Some? && unit == Fahrenheit ==>
      var f := celsius.value * 9.0 / 5.0 + 32.0;
      f - 1.0 / 2.0 < r.value as real <= f + 1.0 / 2.0
  {
    match celsius
    case None => None
    case Some(c) => Some(if unit == Celsius then Round(c) else Round(c * 9.0 / 5.0 + 32.0))
  }

  /** A warmer reading is never shown as a colder one, in either unit. */
  lemma ToUnitMonotone(c1: real, c2: real, unit: TempUnit)
    requires c1 <= c2
    ensures ToUnit(Some(c1), unit).value <= ToUnit(Some(c2), unit).value
  {
    if unit == Celsius {
      RoundMonotone(c1, c2);
    } else {
      RoundMonotone(c1 * 9.0 / 5.0 + 32.0, c2 * 9.0 / 5.0 + 32.0);
    }
  }

  /** Reading a shown Fahrenheit value back as Celsius lands within 5/18 of
      a degree of the stored value: the conversion loses at most half a
      Fahrenheit degree. */
  lemma FahrenheitReadsBack(c: real)
    ensures var f := ToUnit(Some(c), Fahrenheit).value as real;
      -5.0 / 18.0 < (f - 32.0) * 5.0 / 9.0 - c <= 5.0 / 18.0
  {
  }

  /** Whole Celsius degrees are shown unchanged, and the two fixed points of
      the scales come out exactly. */
  lemma ToUnitExactValues(k: int)
    ensures ToUnit(Some(k as real), Celsius) == Some(k)
    ensures ToUnit(Some(100.0), Fahrenheit) == Some(212)
    ensures ToUnit(Some(-40.0), Fahrenheit) == Some(-40)
  {
    RoundOfInteger(k);
  }

  /** `toUnit(x)` placed back in a numeric field. */
  function Converted(celsius: Option<real>, unit: TempUnit): Option<real> {
    match ToUnit(celsius, unit)
    case None => None
    case Some(n) => Some(n as real)
  }

  /** The copy the current-conditions card receives: the current temperature,
      the feels-like temperature and every day's maximum and minimum are
      converted; everything else is the stored snapshot's. */
  function CurrentCardCopy(w: Weather, unit: TempUnit): (v: Weather)
    ensures v.current.(temp := w.current.temp, feelsLike := w.current.feelsLike) == w.current
    ensures v.current.temp == Converted(w.current.temp, unit)
    ensures v.current.feelsLike == Converted(w.current.feelsLike, unit)
    ensures v.hourly == w.hourly && v.sun == w.sun
    ensures |v.daily| == |w.daily|
    ensures forall i :: 0 <= i < |v.daily| ==>
      && v.daily[i].(max := w.daily[i].max, min := w.daily[i].min) == w.daily[i]
      && v.daily[i].max == Converted(w.daily[i].max, unit)
      && v.daily[i].min == Converted(w.daily[i].min, unit)
  {
    var daily := seq(|w.daily|, i requires 0 <= i < |w.daily| =>
      w.daily[i].(max := Converted(w.daily[i].max, unit), min := Converted(w.daily[i].min, unit)));
    w.(current := w.current.(temp := Converted(w.current.temp, unit),
                             feelsLike := Converted(w.current.feelsLike, unit)),
       daily := daily)
  }

  /** The copy the hourly card receives: only each hour's temperature is
      converted. */
  function HourlyCardCopy(w: Weather, unit: TempUnit): (v: Weather)
    ensures v.current == w.current && v.daily == w.daily && v.sun == w.sun
    ensures |v.hourly| == |w.hourly|
    ensures forall i :: 0 <= i < |v.hourly| ==>
      && v.hourly[i].(temp := w.hourly[i].temp) == w.hourly[i]
      && v.hourly[i].temp == Converted(w.hourly[i].temp, unit)
  {
    w.(hourly := seq(|w.hourly|, i requires 0 <= i < |w.hourly| =>
      w.hourly[i].(temp := Converted(w.hourly[i].temp, unit))))
  }

  /** A copy is always derived from the stored Celsius snapshot: converting
      an already converted copy to Fahrenheit again would compound, here
      turning 0 degrees Celsius into 32 and then into 90. */
  lemma ConvertingTwiceCompounds(w: Weather)
    requires w.current.temp == Some(0.0)
    ensures CurrentCardCopy(w, Fahrenheit).current.temp == Some(32.0)
    ensures CurrentCardCopy(CurrentCardCopy(w, Fahrenheit), Fahrenheit).current.temp == Some(90.0)
  {
  }

  // ---------------------------------------------------------------- weather classification

  /** The outlook shared by the page theme and the mascot: the theme calls
      the four cases rain, cold, hot and mild; the mascot calls them rain,
      cold, sunny and cloudy. */
  datatype Outlook = Wet | Cold | Hot | Mild

  /** Humidity above this and rain chance above `WetPop` mean a wet outlook. */
  const WetHumidity: real := 70.0
  const WetPop: real := 50.0
  /** At or below this it is cold, at or above `HotTemp` hot. */
  const ColdTemp: real := 18.0
  const HotTemp: real := 34.0

  /** The ordered rule: wet first, then cold, then hot, else mild. Exactly
      one outlook holds for every reading. */
  function Classify(humidity: real, pop: real, temp: real): (o: Outlook)
    ensures o == Wet <==> humidity > WetHumidity && pop > WetPop
    ensures o == Cold <==> !(humidity > WetHumidity && pop > WetPop) && temp <= ColdTemp
    ensures o == Hot <==> !(humidity > WetHumidity && pop > WetPop) && temp >= HotTemp
    ensures o == Mild <==> !(humidity > WetHumidity && pop > WetPop) && ColdTemp < temp < HotTemp
  {
    if humidity > WetHumidity && pop > WetPop then Wet
    else if temp <= ColdTemp then Cold
    else if temp >= HotTemp then Hot
    else Mild
  }

  /** The CSS class of the page for an outlook. */
  function ThemeClass(o: Outlook): string {
    match o
    case Wet => "theme-rain"
    case Cold => "theme-cold"
    case Hot => "theme-hot"
    case Mild => "theme-mild"
  }

  /** The mascot's condition name for an outlook. */
  function MascotName(o: Outlook): string {
    match o
    case Wet => "rain"
    case Cold => "cold"
    case Hot => "sunny"
    case Mild => "cloudy"
  }

  /** Each outlook has its own page class and its own mascot condition. */
  lemma OutlookNamesDistinct(a: Outlook, b: Outlook)
    ensures ThemeClass(a) == ThemeClass(b) <==> a == b
    ensures MascotName(a) == MascotName(b) <==> a == b
  {
  }

  /** The first hour's rain chance, `data.hourly?.[0]?.pop ?? 0`. */
  function FirstPop(w: Weather): real {
    if w.hourly == [] then 0.0 else w.hourly[0].pop.GetOr(0.0)
  }

  /** The page theme of a snapshot: the outlook of its stored (Celsius,
      unrounded) temperature, 26 when absent, with humidity and the first
      hour's rain chance 0 when absent. */
  function ThemeOf(w: Weather): (o: Outlook)
    ensures o == Wet <==> w.current.humidity.GetOr(0.0) > WetHumidity && FirstPop(w) > WetPop
    ensures w.current.temp.None? ==> o == Wet || o == Mild
    ensures w.current.temp.Some? && o != Wet ==>
      && (o == Cold <==> w.current.temp.value <= ColdTemp)
      && (o == Hot <==> w.current.temp.value >= HotTemp)
  {
    Classify(w.current.humidity.GetOr(0.0), FirstPop(w), w.current.temp.GetOr(26.0))
  }

  /** `getWeatherCondition` applied to whatever copy the card was handed:
      the ordered rule on the card temperature rounded to whole degrees (31
      when absent, and when there is no data at all), so that on the
      unrounded card temperature it is cold below 18.5 and hot from 33.5. */
  function MascotCondition(card: Option<Weather>): (o: Outlook)
    ensures card.None? ==> o == Mild
    ensures card.Some? ==>
      && (o == Wet <==> card.value.current.humidity.GetOr(0.0) > WetHumidity && FirstPop(card.value) > WetPop)
      && (card.value.current.temp.None? ==> o == Wet || o == Mild)
      && (card.value.current.temp.Some? && o != Wet ==>
            && (o == Cold <==> card.value.current.temp.value < 18.5)
            && (o == Hot <==> card.value.current.temp.value >= 33.5))
  {
    match card
    case None => Classify(0.0, 0.0, Round(31.0) as real)
    case Some(w) => Classify(w.current.humidity.GetOr(0.0), FirstPop(w), Round(w.current.temp.GetOr(31.0)) as real)
  }

  /** The mascot as the page shows it: the card is handed the unit-converted
      copy, so the Celsius thresholds are compared with Fahrenheit values
      when the unit is 'F'. */
  function ShownMascot(data: Option<Weather>, unit: TempUnit): (o: Outlook)
    ensures data.None? ==> o == Mild
    ensures data.Some? ==>
      (o == Wet <==> data.value.current.humidity.GetOr(0.0) > WetHumidity && FirstPop(data.value) > WetPop)
    ensures data.Some? && data.value.current.temp.None? ==> o == Wet || o == Mild
    ensures data.Some? && data.value.current.temp.Some? && o != Wet ==>
      var shown := ToUnit(data.value.current.temp, unit).value;
      && (o == Cold <==> shown <= 18)
      && (o == Hot <==> shown >= 34)
  {
    if data.Some? && data.value.current.temp.Some? then
      RoundOfInteger(ToUnit(data.value.current.temp, unit).value);
      MascotCondition(Some(CurrentCardCopy(data.value, unit)))
    else
      MascotCondition(if data.Some? then Some(CurrentCardCopy(data.value, unit)) else None)
  }

  /** The shown mascot depends on the unit: a dry 5 degrees Celsius is
      "cold" in Celsius but "sunny" in Fahrenheit, where the card sees 41. */
  lemma ShownMascotDependsOnUnit(w: Weather)
    requires w.current.temp == Some(5.0) && w.current.humidity == None
    ensures ShownMascot(Some(w), Celsius) == Cold
    ensures ShownMascot(Some(w), Fahrenheit) == Hot
  {
    var f := CurrentCardCopy(w, Fahrenheit);
    assert f.current.temp == Some(41.0);
    assert Round(41.0) == 41;
  }

  /** The mascot with the thresholds applied in Celsius whatever the unit:
      the same as the page shows in Celsius. */
  function CorrectedMascot(data: Option<Weather>): (o: Outlook)
    ensures o == ShownMascot(data, Celsius)
  {
    CelsiusCopyKeepsMascot(data);
    MascotCondition(data)
  }

  /** The Celsius copy rounds an already rounded temperature, which changes
      nothing, and leaves humidity and rain chance alone. */
  lemma CelsiusCopyKeepsMascot(data: Option<Weather>)
    ensures MascotCondition(data) == ShownMascot(data, Celsius)
  {
  }

  /** On a whole-degree (or absent) temperature, the corrected mascot tells
      the same story as the page theme, though the two default differently
      (31 and 26, both mild). */
  lemma MascotAgreesWithTheme(w: Weather)
    requires w.current.temp.None? || w.current.temp.value == w.current.temp.value.Floor as real
    ensures CorrectedMascot(Some(w)) == ThemeOf(w)
  {
    if w.current.temp.Some? {
      RoundOfInteger(w.current.temp.value.Floor);
    }
  }

  // ---------------------------------------------------------------- icons

  /** The daily card's icons, warmest first. */
  datatype DailyIcon = DaySun | DaySunSmallCloud | DaySunBehindCloud | DayCloud | DayRain

  /** How warm an icon is, 4 for the warmest. */
  function DailyWarmth(icon: DailyIcon): nat {
    match icon
    case DaySun => 4
    case DaySunSmallCloud => 3
    case DaySunBehindCloud => 2
    case DayCloud => 1
    case DayRain => 0
  }

  /** The daily icon of a day's maximum, with inclusive lower bounds 35, 30,
      25 and 20; a missing maximum fails every comparison in JavaScript and
      gets the coldest icon. */
  function DailyIconOf(max: Option<real>): (icon: DailyIcon)
    ensures max.None? ==> icon == DayRain
    ensures max.Some? ==>
      && (icon == DaySun <==> max.value >= 35.0)
      && (icon == DaySunSmallCloud <==> 30.0 <= max.value < 35.0)
      && (icon == DaySunBehindCloud <==> 25.0 <= max.value < 30.0)
      && (icon == DayCloud <==> 20.0 <= max.value < 25.0)
      && (icon == DayRain <==> max.value < 20.0)
  {
    match max
    case None => DayRain
    case Some(t) =>
      if t >= 35.0 then DaySun
      else if t >= 30.0 then DaySunSmallCloud
      else if t >= 25.0 then DaySunBehindCloud
      else if t >= 20.0 then DayCloud
      else DayRain
  }

  /** A warmer day never gets a colder icon. */
  lemma DailyIconMonotone(a: real, b: real)
    requires a <= b
    ensures DailyWarmth(DailyIconOf(Some(a))) <= DailyWarmth(DailyIconOf(Some(b)))
  {
  }

  /** The hourly card's icons, warmest first. */
  datatype HourlyIcon = HourSun | HourSunSmallCloud | HourSunBehindCloud | HourCloud

  function HourlyWarmth(icon: HourlyIcon): nat {
    match icon
    case HourSun => 3
    case HourSunSmallCloud => 2
    case HourSunBehindCloud => 1
    case HourCloud => 0
  }

  /** The hourly icon of a rounded temperature, with inclusive lower bounds
      30, 25 and 20. */
  function HourlyIconOf(temp: int): (icon: HourlyIcon)
    ensures icon == HourSun <==> temp >= 30
    ensures icon == HourSunSmallCloud <==> 25 <= temp < 30
    ensures icon == HourSunBehindCloud <==> 20 <= temp < 25
    ensures icon == HourCloud <==> temp < 20
  {
    if temp >= 30 then HourSun
    else if temp >= 25 then HourSunSmallCloud
    else if temp >= 20 then HourSunBehindCloud
    else HourCloud
  }

  /** A warmer hour never gets a colder icon. */
  lemma HourlyIconMonotone(a: int, b: int)
    requires a <= b
    ensures HourlyWarmth(HourlyIconOf(a)) <= HourlyWarmth(HourlyIconOf(b))
  {
  }

  /** The icon the hourly card shows for an hour with a temperature: the card
      is handed the unit-converted copy, so in 'F' the thresholds meet
      Fahrenheit values. An hour without a temperature gets a random
      placeholder, which is not part of this model. */
  function ShownHourlyIcon(h: HourlyPoint, unit: TempUnit): (icon: Option<HourlyIcon>)
    ensures icon.None? <==> h.temp.None?
    ensures icon.Some? ==> icon.value == HourlyIconOf(ToUnit(h.temp, unit).value)
  {
    match Converted(h.temp, unit)
    case None => None
    case Some(t) =>
      RoundOfInteger(ToUnit(h.temp, unit).value);
      Some(HourlyIconOf(Round(t)))
  }

  /** Freezing hours (0 degrees Celsius) show the warmest icon in Fahrenheit. */
  lemma ShownHourlyIconDependsOnUnit(h: HourlyPoint)
    requires h.temp == Some(0.0)
    ensures ShownHourlyIcon(h, Celsius) == Some(HourCloud)
    ensures ShownHourlyIcon(h, Fahrenheit) == Some(HourSun)
  {
    assert Converted(h.temp, Fahrenheit) == Some(32.0);
    assert Round(32.0) == 32;
  }

  /** The hourly icon with the thresholds applied in Celsius whatever the
      unit: the same as the card shows in Celsius. */
  function CorrectedHourlyIcon(h: HourlyPoint): (icon: Option<HourlyIcon>)
    ensures icon == ShownHourlyIcon(h, Celsius)
  {
    match h.temp
    case None => None
    case Some(t) =>
      RoundOfInteger(Round(t));
      Some(HourlyIconOf(Round(t)))
  }

  // ---------------------------------------------------------------- clock label

  datatype Meridiem = Am | Pm

  /** `(hour % 12) || 12` for an hour of the day: 0 becomes 12. */
  function Hour12(hour: int): (h: int)
    requires 0 <= hour < 24
    ensures 1 <= h <= 12
    ensures h % 12 == hour % 12
  {
    if hour % 12 != 0 then hour % 12 else 12
  }

  /** `hour < 12 ? 'am' : 'pm'`. */
  function MeridiemOf(hour: int): (m: Meridiem)
    requires 0 <= hour < 24
    ensures m == Am <==> hour < 12
  {
    if hour < 12 then Am else Pm
  }

  /** Reading a 12-hour label back as an hour of the day. */
  function Hour24(h: int, m: Meridiem): int {
    (if h == 12 then 0 else h) + (if m == Pm then 12 else 0)
  }

  /** The label names the hour unambiguously: reading it back gives the hour. */
  lemma ClockLabelRoundTrip(hour: int)
    requires 0 <= hour < 24
    ensures Hour24(Hour12(hour), MeridiemOf(hour)) == hour
  {
  }

  // ---------------------------------------------------------------- alert carousel

  /** The alert carousel has four slides. */
  const SlideCount: nat := 4

  /** `(i + 1) % slides.length`: the next slide, wrapping to the first. */
  function NextSlide(i: int): (j: int)
    requires 0 <= i < SlideCount
    ensures 0 <= j < SlideCount
    ensures j == if i == SlideCount - 1 then 0 else i + 1
  {
    (i + 1) % SlideCount
  }

  /** The slide after `k` ticks of the carousel's interval. */
  function AdvanceBy(i: int, k: nat): (j: int)
    requires 0 <= i < SlideCount
    ensures 0 <= j < SlideCount
  {
    if k == 0 then i else NextSlide(AdvanceBy(i, k - 1))
  }

  /** After `k` ticks the carousel shows slide `(i + k) % 4`: it cycles
      through every slide and is back where it started after four. */
  lemma {:induction false} AdvanceByCycles(i: int, k: nat)
    requires 0 <= i < SlideCount
    ensures AdvanceBy(i, k) == (i + k) % SlideCount
  {
    if k > 0 {
      AdvanceByCycles(i, k - 1);
      WrapStep(i + k - 1);
    }
  }

  /** One more step moves the remainder by one, wrapping from 3 to 0. */
  lemma WrapStep(n: nat)
    ensures (n + 1) % SlideCount == if n % SlideCount == SlideCount - 1 then 0 else n % SlideCount + 1
  {
  }

  // ---------------------------------------------------------------- picked city title

  /** The header title for a picked city: name, region and country, the
      absent or empty ones dropped, joined by ", ". */
  function PickTitle(city: CitySuggestion): string {
    Join(Compact([city.name, city.admin1, city.country]), ", ")
  }

  /** The title in each of the eight cases of a name, region and country
      being present (and non-empty) or not: the present ones in that order,
      separated by ", ". */
  lemma PickTitleCases(city: CitySuggestion)
    ensures var n, r, c := city.name, city.admin1, city.country;
      && (Truthy(n) && Truthy(r) && Truthy(c) ==> PickTitle(city) == n.value + ", " + r.value + ", " + c.value)
      && (Truthy(n) && Truthy(r) && !Truthy(c) ==> PickTitle(city) == n.value + ", " + r.value)
      && (Truthy(n) && !Truthy(r) && Truthy(c) ==> PickTitle(city) == n.value + ", " + c.value)
      && (Truthy(n) && !Truthy(r) && !Truthy(c) ==> PickTitle(city) == n.value)
      && (!Truthy(n) && Truthy(r) && Truthy(c) ==> PickTitle(city) == r.value + ", " + c.value)
      && (!Truthy(n) && Truthy(r) && !Truthy(c) ==> PickTitle(city) == r.value)
      && (!Truthy(n) && !Truthy(r) && Truthy(c) ==> PickTitle(city) == c.value)
      && (!Truthy(n) && !Truthy(r) && !Truthy(c) ==> PickTitle(city) == "")
  {
    var a := Compact([city.name, city.admin1, city.country]);
    CompactOfThree(city.name, city.admin1, city.country);
    if |a| == 2 {
      JoinOfTwo(a[0], a[1], ", ");
      assert a == [a[0], a[1]];
    } else if |a| == 3 {
      JoinOfThree(a[0], a[1], a[2], ", ");
      assert a == [a[0], a[1], a[2]];
    }
  }

  /** The kept strings of three optional parts, written out. */
  lemma CompactOfThree(x: Option<string>, y: Option<string>, z: Option<string>)
    ensures Compact([x, y, z]) ==
      (if Truthy(x) then [x.value] else [])
      + ((if Truthy(y) then [y.value] else []) + (if Truthy(z) then [z.value] else []))
  {
    var kx := if Truthy(x) then [x.value] else [];
    var ky := if Truthy(y) then [y.value] else [];
    var kz := if Truthy(z) then [z.value] else [];
    assert [z][1..] == [];
    CompactCons([z]);
    var cz := Compact([z]);
    assert cz == kz;
    assert [y, z][1..] == [z];
    CompactCons([y, z]);
    var cyz := Compact([y, z]);
    assert cyz == ky + kz;
    assert [x, y, z][1..] == [y, z];
    CompactCons([x, y, z]);
    assert Compact([x, y, z]) == kx + (ky + kz);
  }
}
