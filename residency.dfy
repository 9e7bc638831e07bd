/**
 * The aggregation pipeline: keep the planets that appear in more than
 * `filmsCount` films and resolve each one's resident references to names,
 * failing as a whole on the first failed lookup.
 */
module Residency {
  import opened Wrappers
  import opened Shapes

  /** The film filter: strictly more film references than the threshold. */
  predicate Qualifies(p: Planet, filmsCount: int)
  {
    |p.films| > filmsCount
  }

  /** The qualifying planets, in input order (the reference definition of the filter). */
  function Qualifying(planets: seq<Planet>, filmsCount: int): seq<Planet>
  {
    if planets == [] then []
    else (if Qualifies(planets[0], filmsCount) then [planets[0]] else [])
         + Qualifying(planets[1..], filmsCount)
  }

  /** Every resident reference of every qualifying planet, in order, duplicates kept. */
  function Lookups(planets: seq<Planet>, filmsCount: int): seq<Uri>
  {
    if planets == [] then []
    else (if Qualifies(planets[0], filmsCount) then planets[0].residents else [])
         + Lookups(planets[1..], filmsCount)
  }

  /** What the inner loop computes: the names of `uris` in order, or the first lookup error. */
  function ResolveNames(fetch: ResidentFetcher, uris: seq<Uri>): Result<seq<string>, FetchError>
  {
    if uris == [] then Ok([])
    else
      match fetch(uris[0])
      case Err(e) => Err(e)
      case Ok(resident) => Prepend([resident.name], ResolveNames(fetch, uris[1..]))
  }

  /** The lookups the inner loop issues: one per reference, up to and including the first failure. */
  function ResolveTrace(fetch: ResidentFetcher, uris: seq<Uri>): seq<Uri>
  {
    if uris == [] then []
    else [uris[0]] + (if fetch(uris[0]).Err? then [] else ResolveTrace(fetch, uris[1..]))
  }

  /** What the outer loop computes: one entry per qualifying planet, or the first lookup error. */
  function Aggregate(fetch: ResidentFetcher, filmsCount: int, planets: seq<Planet>): Result<seq<PlanetWithResidents>, FetchError>
  {
    if planets == [] then Ok([])
    else if !Qualifies(planets[0], filmsCount) then Aggregate(fetch, filmsCount, planets[1..])
    else
      match ResolveNames(fetch, planets[0].residents)
      case Err(e) => Err(e)
      case Ok(names) =>
        Prepend([PlanetWithResidents(planets[0].name, names)], Aggregate(fetch, filmsCount, planets[1..]))
  }

  /** The lookups the whole aggregation issues, in order, up to and including the first failure. */
  function Trace(fetch: ResidentFetcher, filmsCount: int, planets: seq<Planet>): seq<Uri>
  {
    if planets == [] then []
    else if !Qualifies(planets[0], filmsCount) then Trace(fetch, filmsCount, planets[1..])
    else
      ResolveTrace(fetch, planets[0].residents)
      + (if ResolveNames(fetch, planets[0].residents).Ok? then Trace(fetch, filmsCount, planets[1..]) else [])
  }

  /**
   * One step of the inner loop: the suffix from `j` unfolds at reference `j`.
   * Dafny proves it unaided; stating it as a lemma keeps the loop's
   * verification cheap.
   */
  lemma ResolveStep(fetch: ResidentFetcher, uris: seq<Uri>, j: nat)
    requires j < |uris|
    ensures fetch(uris[j]).Err? ==> ResolveNames(fetch, uris[j..]) == Err(fetch(uris[j]).error)
    ensures fetch(uris[j]).Err? ==> ResolveTrace(fetch, uris[j..]) == [uris[j]]
    ensures fetch(uris[j]).Ok? ==>
              ResolveNames(fetch, uris[j..]) == Prepend([fetch(uris[j]).value.name], ResolveNames(fetch, uris[j + 1..]))
    ensures fetch(uris[j]).Ok? ==>
              ResolveTrace(fetch, uris[j..]) == [uris[j]] + ResolveTrace(fetch, uris[j + 1..])
  {
  }

  /**
   * The inner loop: look up each resident reference in order and collect the
   * names; the first failed lookup ends the loop with its error. `issued`
   * records, in order, the references looked up.
   */
  method ResolveResidentNames(fetch: ResidentFetcher, residents: seq<Uri>)
    returns (r: Result<seq<string>, FetchError>, ghost issued: seq<Uri>)
    ensures r == ResolveNames(fetch, residents)
    ensures issued == ResolveTrace(fetch, residents)
  {
    var names: seq<string> := [];
    issued := [];
    PrependNothing(ResolveNames(fetch, residents));
    for j := 0 to |residents|
      invariant ResolveNames(fetch, residents) == Prepend(names, ResolveNames(fetch, residents[j..]))
      invariant ResolveTrace(fetch, residents) == issued + ResolveTrace(fetch, residents[j..])
    {
      var uri := residents[j];
      ResolveStep(fetch, residents, j);
      issued := issued + [uri];
      match fetch(uri) {
        case Err(e) =>
          return Err(e), issued;
        case Ok(resident) =>
          PrependTwice(names, [resident.name], ResolveNames(fetch, residents[j + 1..]));
          names := names + [resident.name];
      }
    }
    assert names + [] == names;
    return Ok(names), issued;
  }

  /**
   * One step of the outer loop: the suffix from `i` unfolds at planet `i`.
   * Dafny proves it unaided; stating it as a lemma keeps the loop's
   * verification cheap.
   */
  lemma AggregateStep(fetch: ResidentFetcher, filmsCount: int, planets: seq<Planet>, i: nat)
    requires i < |planets|
    ensures !Qualifies(planets[i], filmsCount) ==>
              Aggregate(fetch, filmsCount, planets[i..]) == Aggregate(fetch, filmsCount, planets[i + 1..])
              && Trace(fetch, filmsCount, planets[i..]) == Trace(fetch, filmsCount, planets[i + 1..])
    ensures Qualifies(planets[i], filmsCount) && ResolveNames(fetch, planets[i].residents).Err? ==>
              Aggregate(fetch, filmsCount, planets[i..]) == Err(ResolveNames(fetch, planets[i].residents).error)
              && Trace(fetch, filmsCount, planets[i..]) == ResolveTrace(fetch, planets[i].residents)
    ensures Qualifies(planets[i], filmsCount) && ResolveNames(fetch, planets[i].residents).Ok? ==>
              Aggregate(fetch, filmsCount, planets[i..])
                == Prepend([PlanetWithResidents(planets[i].name, ResolveNames(fetch, planets[i].residents).value)],
                           Aggregate(fetch, filmsCount, planets[i + 1..]))
              && Trace(fetch, filmsCount, planets[i..])
                 == ResolveTrace(fetch, planets[i].residents) + Trace(fetch, filmsCount, planets[i + 1..])
  {
  }

  /**
   * The outer loop: walk the planets in order, skip those that do not pass
   * the film filter, and build one entry per qualifying planet. `issued`
   * records, in order, the resident references looked up.
   */
  method GetResidentsOfPlanetsInFilms(filmsCount: int, planets: seq<Planet>, fetch: ResidentFetcher)
    returns (r: Result<seq<PlanetWithResidents>, FetchError>, ghost issued: seq<Uri>)
    ensures r == Aggregate(fetch, filmsCount, planets)
    ensures issued == Trace(fetch, filmsCount, planets)
  {
    var out: seq<PlanetWithResidents> := [];
    issued := [];
    PrependNothing(Aggregate(fetch, filmsCount, planets));
    for i := 0 to |planets|
      invariant Aggregate(fetch, filmsCount, planets) == Prepend(out, Aggregate(fetch, filmsCount, planets[i..]))
      invariant Trace(fetch, filmsCount, planets) == issued + Trace(fetch, filmsCount, planets[i..])
    {
      var planet := planets[i];
      AggregateStep(fetch, filmsCount, planets, i);
      if |planet.films| > filmsCount {
        var names, lookups := ResolveResidentNames(fetch, planet.residents);
        issued := issued + lookups;
        if names.Err? {
          return Err(names.error), issued;
        }
        var entry := PlanetWithResidents(planet.name, names.value);
        PrependTwice(out, [entry], Aggregate(fetch, filmsCount, planets[i + 1..]));
        out := out + [entry];
      }
    }
    assert out + [] == out && issued + [] == issued;
    return Ok(out), issued;
  }

  /** The filter keeps exactly the qualifying planets and never lengthens its input. */
  lemma {:induction false} QualifyingExactly(planets: seq<Planet>, filmsCount: int)
    ensures |Qualifying(planets, filmsCount)| <= |planets|
    ensures forall p :: p in Qualifying(planets, filmsCount) <==> p in planets && Qualifies(p, filmsCount)
  {
    if planets != [] {
      QualifyingExactly(planets[1..], filmsCount);
      assert planets == [planets[0]] + planets[1..];
    }
  }

  /**
   * A lookup is issued for a reference exactly when it is a resident of some
   * qualifying planet; a non-qualifying planet contributes none.
   */
  lemma {:induction false} LookupsExactly(planets: seq<Planet>, filmsCount: int)
    ensures forall u :: u in Lookups(planets, filmsCount) <==>
              exists p :: p in planets && Qualifies(p, filmsCount) && u in p.residents
  {
    if planets != [] {
      LookupsExactly(planets[1..], filmsCount);
      assert planets == [planets[0]] + planets[1..];
    }
  }

  /**
   * A successful resolution has one name per reference, in reference order:
   * the i-th name is the name fetched for the i-th reference.
   */
  lemma {:induction false} ResolveNamesOk(fetch: ResidentFetcher, uris: seq<Uri>, names: seq<string>)
    requires ResolveNames(fetch, uris) == Ok(names)
    ensures |names| == |uris|
    ensures forall j :: 0 <= j < |uris| ==> fetch(uris[j]).Ok? && fetch(uris[j]).value.name == names[j]
  {
    if uris != [] {
      var rest := ResolveNames(fetch, uris[1..]).value;
      assert names == [fetch(uris[0]).value.name] + rest;
      ResolveNamesOk(fetch, uris[1..], rest);
      forall j | 0 <= j < |uris|
        ensures fetch(uris[j]).Ok? && fetch(uris[j]).value.name == names[j]
      {
        if j > 0 {
          assert uris[j] == uris[1..][j - 1] && names[j] == rest[j - 1];
        }
      }
    }
  }

  /** Resolution succeeds if and only if every single lookup succeeds. */
  lemma {:induction false} ResolveNamesSucceedsIff(fetch: ResidentFetcher, uris: seq<Uri>)
    ensures ResolveNames(fetch, uris).Ok? <==> forall j :: 0 <= j < |uris| ==> fetch(uris[j]).Ok?
  {
    if uris != [] {
      ResolveNamesSucceedsIff(fetch, uris[1..]);
      assert forall j :: 1 <= j < |uris| ==> uris[j] == uris[1..][j - 1];
    }
  }

  /**
   * The inner loop looks up a prefix of the references: all of them when it
   * succeeds; otherwise, up to the first failed one, whose error it returns.
   */
  lemma {:induction false} ResolveTraceSpec(fetch: ResidentFetcher, uris: seq<Uri>)
    ensures |ResolveTrace(fetch, uris)| <= |uris|
    ensures ResolveTrace(fetch, uris) == uris[..|ResolveTrace(fetch, uris)|]
    ensures ResolveNames(fetch, uris).Ok? ==> ResolveTrace(fetch, uris) == uris
    ensures ResolveNames(fetch, uris).Err? ==>
              var t := ResolveTrace(fetch, uris);
              |t| > 0 && fetch(t[|t| - 1]) == Err(ResolveNames(fetch, uris).error)
              && forall m :: 0 <= m < |t| - 1 ==> fetch(t[m]).Ok?
  {
    if uris != [] {
      ResolveTraceSpec(fetch, uris[1..]);
      assert uris == [uris[0]] + uris[1..];
      var t := ResolveTrace(fetch, uris);
      if fetch(uris[0]).Ok? {
        var t' := ResolveTrace(fetch, uris[1..]);
        assert t == [uris[0]] + t';
        assert forall m :: 1 <= m < |t| ==> t[m] == t'[m - 1];
      }
    }
  }

  /**
   * A successful aggregation has one entry per qualifying planet, in input
   * order; each entry carries its planet's name and, position by position,
   * the names fetched for that planet's resident references.
   */
  lemma {:induction false} AggregateOk(fetch: ResidentFetcher, filmsCount: int, planets: seq<Planet>, out: seq<PlanetWithResidents>)
    requires Aggregate(fetch, filmsCount, planets) == Ok(out)
    ensures |out| == |Qualifying(planets, filmsCount)|
    ensures forall i :: 0 <= i < |out| ==>
              var p := Qualifying(planets, filmsCount)[i];
              out[i].planetName == p.name
              && |out[i].residentsNames| == |p.residents|
              && forall j :: 0 <= j < |p.residents| ==>
                   fetch(p.residents[j]).Ok? && fetch(p.residents[j]).value.name == out[i].residentsNames[j]
  {
    if planets != [] {
      var q := Qualifying(planets, filmsCount);
      var q' := Qualifying(planets[1..], filmsCount);
      if !Qualifies(planets[0], filmsCount) {
        assert q == q';
        AggregateOk(fetch, filmsCount, planets[1..], out);
      } else {
        var names := ResolveNames(fetch, planets[0].residents).value;
        var rest := Aggregate(fetch, filmsCount, planets[1..]).value;
        assert out == [PlanetWithResidents(planets[0].name, names)] + rest;
        assert q == [planets[0]] + q';
        ResolveNamesOk(fetch, planets[0].residents, names);
        AggregateOk(fetch, filmsCount, planets[1..], rest);
        forall i | 1 <= i < |out|
          ensures out[i] == rest[i - 1] && q[i] == q'[i - 1]
        {
        }
      }
    }
  }

  /** Aggregation succeeds if and only if every lookup it has to make succeeds. */
  lemma {:induction false} AggregateSucceedsIff(fetch: ResidentFetcher, filmsCount: int, planets: seq<Planet>)
    ensures Aggregate(fetch, filmsCount, planets).Ok? <==>
              forall k :: 0 <= k < |Lookups(planets, filmsCount)| ==> fetch(Lookups(planets, filmsCount)[k]).Ok?
  {
    if planets != [] {
      AggregateSucceedsIff(fetch, filmsCount, planets[1..]);
      assert Aggregate(fetch, filmsCount, planets[1..]).Ok? ==> forall k :: 0 <= k < |Lookups(planets[1..], filmsCount)| ==> fetch(Lookups(planets[1..], filmsCount)[k]).Ok?;
      if Qualifies(planets[0], filmsCount) {
        var res := planets[0].residents;
        var l' := Lookups(planets[1..], filmsCount);
        var l := res + l';
        ResolveNamesSucceedsIff(fetch, res);
        assert Lookups(planets, filmsCount) == l;
        if Aggregate(fetch, filmsCount, planets).Ok? {
          assert ResolveNames(fetch, res).Ok? && Aggregate(fetch, filmsCount, planets[1..]).Ok?;
          forall k | 0 <= k < |l| ensures fetch(l[k]).Ok? {
            if k < |res| {
              assert l[k] == res[k];
            } else {
              assert l[k] == l'[k - |res|];
            }
          }
        } else if ResolveNames(fetch, res).Ok? {
          var k :| 0 <= k < |l'| && fetch(l'[k]).Err?;
          assert l[|res| + k] == l'[k];
        } else {
          var k :| 0 <= k < |res| && fetch(res[k]).Err?;
          assert l[k] == res[k];
        }
      } else {
        assert Lookups(planets, filmsCount) == Lookups(planets[1..], filmsCount);
      }
    }
  }

  /**
   * The lookups issued are a prefix of the resident references of the
   * qualifying planets, and all of them when the aggregation succeeds.
   */
  lemma {:induction false} TraceIsPrefix(fetch: ResidentFetcher, filmsCount: int, planets: seq<Planet>)
    ensures |Trace(fetch, filmsCount, planets)| <= |Lookups(planets, filmsCount)|
    ensures Trace(fetch, filmsCount, planets) == Lookups(planets, filmsCount)[..|Trace(fetch, filmsCount, planets)|]
    ensures Aggregate(fetch, filmsCount, planets).Ok? ==> Trace(fetch, filmsCount, planets) == Lookups(planets, filmsCount)
  {
    if planets != [] {
      TraceIsPrefix(fetch, filmsCount, planets[1..]);
      if Qualifies(planets[0], filmsCount) {
        var res := planets[0].residents;
        var t := Trace(fetch, filmsCount, planets);
        var t' := Trace(fetch, filmsCount, planets[1..]);
        var l' := Lookups(planets[1..], filmsCount);
        assert Lookups(planets, filmsCount) == res + l';
        ResolveTraceSpec(fetch, res);
        if ResolveNames(fetch, res).Ok? {
          assert t == res + t';
          assert (res + l')[..|t|] == res + l'[..|t'|];
        } else {
          assert t == ResolveTrace(fetch, res);
          assert (res + l')[..|t|] == res[..|t|];
        }
      }
    }
  }

  /**
   * A failed aggregation stops at its first failed lookup: the last lookup
   * issued failed with the aggregation's error and every earlier one
   * succeeded.
   */
  lemma {:induction false} TraceStopsAtFailure(fetch: ResidentFetcher, filmsCount: int, planets: seq<Planet>)
    requires Aggregate(fetch, filmsCount, planets).Err?
    ensures var t := Trace(fetch, filmsCount, planets);
            |t| > 0 && fetch(t[|t| - 1]) == Err(Aggregate(fetch, filmsCount, planets).error)
            && forall m :: 0 <= m < |t| - 1 ==> fetch(t[m]).Ok?
  {
    if !Qualifies(planets[0], filmsCount) {
      TraceStopsAtFailure(fetch, filmsCount, planets[1..]);
    } else {
      var res := planets[0].residents;
      var t := Trace(fetch, filmsCount, planets);
      ResolveTraceSpec(fetch, res);
      if ResolveNames(fetch, res).Ok? {
        var t' := Trace(fetch, filmsCount, planets[1..]);
        TraceStopsAtFailure(fetch, filmsCount, planets[1..]);
        ResolveNamesSucceedsIff(fetch, res);
        assert t == res + t';
        assert forall m :: 0 <= m < |res| ==> t[m] == res[m];
        assert forall m :: |res| <= m < |t| ==> t[m] == t'[m - |res|];
      } else {
        assert t == ResolveTrace(fetch, res);
      }
    }
  }

  /** The output never has more entries than there are input planets. */
  lemma AggregateLength(fetch: ResidentFetcher, filmsCount: int, planets: seq<Planet>, out: seq<PlanetWithResidents>)
    requires Aggregate(fetch, filmsCount, planets) == Ok(out)
    ensures |out| <= |planets|
  {
    AggregateOk(fetch, filmsCount, planets, out);
    QualifyingExactly(planets, filmsCount);
  }

  /** A qualifying planet without residents still gets an entry, with no names. */
  lemma {:induction false} ZeroResidents(fetch: ResidentFetcher, filmsCount: int, planets: seq<Planet>, out: seq<PlanetWithResidents>, i: nat)
    requires Aggregate(fetch, filmsCount, planets) == Ok(out)
    requires i < |planets| && Qualifies(planets[i], filmsCount) && planets[i].residents == []
    ensures PlanetWithResidents(planets[i].name, []) in out
  {
    if !Qualifies(planets[0], filmsCount) {
      ZeroResidents(fetch, filmsCount, planets[1..], out, i - 1);
    } else {
      var names := ResolveNames(fetch, planets[0].residents).value;
      var rest := Aggregate(fetch, filmsCount, planets[1..]).value;
      assert out == [PlanetWithResidents(planets[0].name, names)] + rest;
      if i > 0 {
        ZeroResidents(fetch, filmsCount, planets[1..], rest, i - 1);
      }
    }
  }
}
