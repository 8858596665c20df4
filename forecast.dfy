/**
 * The five-day view of the forecast card: the forecast has one entry every
 * three hours, so every eighth entry is one day later than the one before.
 */
module Forecast {
  import opened Types

  /** The number of days the card shows. */
  const Days: nat := 5

  /** The number of three-hour entries per day. */
  const Stride: nat := 8

  /**
   * The entries of `s` whose position, counted from `index` for the first one,
   * is a multiple of eight: `filter((item, index) => index % 8 === 0)` once the
   * position counter has reached `index`.
   */
  function EveryEighthFrom<T>(s: seq<T>, index: nat): (r: seq<T>)
    ensures |r| <= |s|
  {
    if s == [] then []
    else (if index % Stride == 0 then [s[0]] else []) + EveryEighthFrom(s[1..], index + 1)
  }

  /**
   * Filtering from position `index` keeps the entries at offsets `first`,
   * `first + 8`, `first + 16`, ... of `s`, where `first` is the distance from
   * `index` to the next multiple of eight.
   */
  lemma {:induction false} EveryEighthFromAt<T>(s: seq<T>, index: nat)
    ensures var first := (Stride - index % Stride) % Stride;
            var r := EveryEighthFrom(s, index);
            |r| == (if |s| <= first then 0 else (|s| - first + Stride - 1) / Stride) &&
            forall i :: 0 <= i < |r| ==> first + Stride * i < |s| && r[i] == s[first + Stride * i]
  {
    if s != [] {
      EveryEighthFromAt(s[1..], index + 1);
      var rest := EveryEighthFrom(s[1..], index + 1);
      var first := (Stride - index % Stride) % Stride;
      if index % Stride == 0 {
        assert first == 0 && (Stride - (index + 1) % Stride) % Stride == Stride - 1;
        assert EveryEighthFrom(s, index) == [s[0]] + rest;
        forall i | 1 <= i < 1 + |rest|
          ensures Stride * i < |s| && ([s[0]] + rest)[i] == s[Stride * i]
        {
          assert rest[i - 1] == s[1..][Stride - 1 + Stride * (i - 1)];
        }
      } else {
        assert (Stride - (index + 1) % Stride) % Stride == first - 1;
        assert EveryEighthFrom(s, index) == rest;
      }
    }
  }

  /** `list.filter((item, index) => index % 8 === 0)`. */
  function EveryEighth<T>(list: seq<T>): (r: seq<T>)
    ensures |r| == (|list| + Stride - 1) / Stride
    ensures forall i :: 0 <= i < |r| ==> Stride * i < |list| && r[i] == list[Stride * i]
  {
    EveryEighthFromAt(list, 0);
    EveryEighthFrom(list, 0)
  }

  /**
   * The entries the card shows: `list.filter((item, index) => index % 8 === 0).slice(0, 5)`.
   * Entry i is input entry 8 * i, and there are ceil(n / 8) of them, at most five.
   */
  function DailyForecasts(data: ForecastData): (r: seq<ForecastEntry>)
    ensures |r| == if (|data.list| + Stride - 1) / Stride < Days then (|data.list| + Stride - 1) / Stride else Days
    ensures forall i :: 0 <= i < |r| ==> Stride * i < |data.list| && r[i] == data.list[Stride * i]
  {
    var daily := EveryEighth(data.list);
    if |daily| <= Days then daily else daily[..Days]
  }

  /** A full five-day forecast of forty entries shows the entries at 0, 8, 16, 24 and 32. */
  lemma FortyEntriesShowFiveDays(data: ForecastData)
    requires |data.list| == 40
    ensures DailyForecasts(data) == [data.list[0], data.list[8], data.list[16], data.list[24], data.list[32]]
  {
  }

  /** An empty forecast shows nothing. */
  lemma EmptyForecastShowsNothing(data: ForecastData)
    requires data.list == []
    ensures DailyForecasts(data) == []
  {
  }
}
