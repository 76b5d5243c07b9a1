/**
 * The two scraping routes of the server, `/api/active-storms` and
 * `/api/storm-analytics`, after the HTML has been fetched and queried: the
 * texts the selectors found are inputs, an absent page is a failed fetch.
 */
module StormFeeds {
  import opened Wrappers
  import opened Strings

  /** The texts found inside one `.storm, .cyclone` element (before trimming). */
  datatype StormElement = StormElement(nameText: string, windSpeedText: string, pressureText: string)

  datatype Location = Location(lat: real, lon: real)

  /** One entry of the active-storm list sent to clients. */
  datatype Storm = Storm(
    id: int,
    name: string,
    category: int,
    windSpeed: string,
    pressure: string,
    location: Location,
    movement: string,
    status: string
  )

  /** `text || 'N/A'` */
  function OrNA(s: string): string
  {
    if s == "" then "N/A" else s
  }

  /** The storm pushed for the element at index `i`: every scraped storm gets category 3 and a fixed position. */
  function MakeStorm(i: nat, e: StormElement): Storm
  {
    Storm(i + 1, Trim(e.nameText), 3, OrNA(Trim(e.windSpeedText)), OrNA(Trim(e.pressureText)),
          Location(17.22446, -77.083), "N/A", "Active")
  }

  predicate Named(e: StormElement)
  {
    Trim(e.nameText) != ""
  }

  /** The list the `.each` callback has built after visiting `elems`, in visiting order. */
  function ActiveStorms(elems: seq<StormElement>): seq<Storm>
  {
    if elems == [] then []
    else
      var n := |elems| - 1;
      ActiveStorms(elems[..n]) + (if Named(elems[n]) then [MakeStorm(n, elems[n])] else [])
  }

  /** Visiting one more element extends the list by at most that element's storm. */
  lemma ActiveStormsStep(elems: seq<StormElement>, i: nat)
    requires i < |elems|
    ensures ActiveStorms(elems[..i + 1])
         == ActiveStorms(elems[..i]) + (if Named(elems[i]) then [MakeStorm(i, elems[i])] else [])
  {
    assert elems[..i + 1][..i] == elems[..i];
  }

  /**
   * `/api/active-storms`: visit the elements in order and push a storm for each
   * one with a non-empty name; a failed fetch answers with the empty list.
   */
  method CollectActiveStorms(page: Option<seq<StormElement>>) returns (storms: seq<Storm>)
    ensures page.None? ==> storms == []
    ensures page.Some? ==> storms == ActiveStorms(page.value)
  {
    storms := [];
    if page.None? {
      return;
    }
    var elems := page.value;
    var i := 0;
    while i < |elems|
      invariant 0 <= i <= |elems|
      invariant storms == ActiveStorms(elems[..i])
    {
      ActiveStormsStep(elems, i);
      var e := elems[i];
      if Trim(e.nameText) != "" {
        storms := storms + [MakeStorm(i, e)];
      }
      i := i + 1;
    }
    assert elems[..i] == elems;
  }

  /** `s` is the storm built from a named element of `elems`, whose index is `s.id - 1`. */
  ghost predicate FromElement(elems: seq<StormElement>, s: Storm)
  {
    1 <= s.id <= |elems| && Named(elems[s.id - 1]) && s == MakeStorm(s.id - 1, elems[s.id - 1])
  }

  /** A storm built from an element of a prefix is built from the same element of the whole list. */
  lemma FromElementExtends(prefix: seq<StormElement>, elems: seq<StormElement>, s: Storm)
    requires |prefix| < |elems| && prefix == elems[..|prefix|]
    requires FromElement(prefix, s)
    ensures FromElement(elems, s) && s.id <= |prefix|
  {
    assert elems[s.id - 1] == prefix[s.id - 1];
  }

  /**
   * Every storm in the list comes from a named element and carries that
   * element's index plus one as its id.
   */
  lemma {:induction false} ActiveStormsSound(elems: seq<StormElement>)
    ensures forall j :: 0 <= j < |ActiveStorms(elems)| ==> FromElement(elems, ActiveStorms(elems)[j])
  {
    if elems != [] {
      var n := |elems| - 1;
      var prefix := elems[..n];
      var p := ActiveStorms(prefix);
      var r := ActiveStorms(elems);
      ActiveStormsSound(prefix);
      forall j | 0 <= j < |r| ensures FromElement(elems, r[j]) {
        if j < |p| {
          assert r[j] == p[j];
          FromElementExtends(prefix, elems, p[j]);
        } else {
          assert r[j] == MakeStorm(n, elems[n]);
        }
      }
    }
  }

  /** The ids increase strictly along the list, so no two storms share an id. */
  lemma {:induction false} ActiveStormIdsIncrease(elems: seq<StormElement>)
    ensures forall j, k :: 0 <= j < k < |ActiveStorms(elems)| ==>
      ActiveStorms(elems)[j].id < ActiveStorms(elems)[k].id
  {
    if elems != [] {
      var n := |elems| - 1;
      var prefix := elems[..n];
      var p := ActiveStorms(prefix);
      var r := ActiveStorms(elems);
      ActiveStormIdsIncrease(prefix);
      ActiveStormsSound(prefix);
      forall j, k | 0 <= j < k < |r| ensures r[j].id < r[k].id {
        assert r[j] == p[j];
        assert FromElement(prefix, p[j]);
        if k < |p| {
          assert r[k] == p[k];
        } else {
          assert r[k] == MakeStorm(n, elems[n]);
        }
      }
    }
  }

  /** Every named element is listed, as the storm built from it. */
  lemma {:induction false} ActiveStormsComplete(elems: seq<StormElement>, i: nat)
    requires i < |elems| && Named(elems[i])
    ensures exists j :: 0 <= j < |ActiveStorms(elems)| && ActiveStorms(elems)[j] == MakeStorm(i, elems[i])
  {
    var n := |elems| - 1;
    var prefix := elems[..n];
    if i == n {
      var j := |ActiveStorms(prefix)|;
      assert ActiveStorms(elems)[j] == MakeStorm(i, elems[i]);
    } else {
      ActiveStormsComplete(prefix, i);
      var j :| 0 <= j < |ActiveStorms(prefix)| && ActiveStorms(prefix)[j] == MakeStorm(i, prefix[i]);
      assert ActiveStorms(elems)[j] == ActiveStorms(prefix)[j];
    }
  }

  /** The statistics block of the analytics answer. */
  datatype CurrentStats = CurrentStats(maxWindSpeed: string, minPressure: string, movement: string, category: int)

  /** The analytics answer (the fixed chart series it also carries are not modelled). */
  datatype Analytics = Analytics(stormName: string, currentStats: CurrentStats)

  /**
   * What the selectors of `/api/storm-analytics` found on the page. `category`
   * is the value `parseInt` produced, `None` standing for `NaN`.
   */
  datatype AnalyticsPage = AnalyticsPage(
    nameText: string,
    windText: string,
    pressureText: string,
    movementText: string,
    category: Option<int>
  )

  /**
   * `/api/storm-analytics`: `null` when the fetch fails or the page names no storm;
   * otherwise the storm's name and statistics, an empty statistic reading "N/A"
   * and an unreadable category reading 0.
   */
  function StormAnalytics(page: Option<AnalyticsPage>): (r: Option<Analytics>)
    ensures r.Some? <==> page.Some? && Trim(page.value.nameText) != ""
    ensures r.Some? ==> r.value.stormName == Trim(page.value.nameText) && r.value.stormName != ""
    ensures r.Some? ==> r.value.currentStats.maxWindSpeed != "" && r.value.currentStats.minPressure != ""
                        && r.value.currentStats.movement != ""
    ensures r.Some? && page.value.category.None? ==> r.value.currentStats.category == 0
  {
    match page
    case None => None
    case Some(p) =>
      var name := Trim(p.nameText);
      if name == "" then None
      else
        Some(Analytics(name, CurrentStats(
          OrNA(Trim(p.windText)), OrNA(Trim(p.pressureText)), OrNA(Trim(p.movementText)),
          if p.category.Some? then p.category.value else 0)))
  }
}
