/** The two region layers of the map as values: the rate records, the per-shape
    render state of municipalities and cantons, the canton lookup table, the
    canton average, and the specification of each colouring pass as a function
    of the layer before the pass. */
module Regions {
  import opened Basics
  import opened Binner

  /** One record of the rate store. */
  datatype RateRecord = RateRecord(
    municipalityId: int,      // gemeinde_id
    cantonKey: string,        // kanton_id
    municipalityName: string, // gemeinde
    cantonName: string,       // kanton_name
    rate: real)               // satz, a fraction in [0, 1]

  /** The `style` attribute of a shape: absent, `fill: <colour>`, or the
      neutral `fill: none; stroke-width: 1.5;` of a clicked canton. */
  datatype Style = Unstyled | Fill(colour: Colour) | Neutral

  /** Render state of one municipality path: its style and its `active` class. */
  datatype MunicipalityShape = MunicipalityShape(style: Style, active: bool)

  /** Render state of one canton path; `averageRate` is its attribute of that
      name (None while it was never set). */
  datatype CantonShape = CantonShape(style: Style, active: bool, averageRate: Option<real>)

  /** One entry of the static canton lookup: canton shape id and the canton key
      that rate records carry. The lookup is an object with integer-like keys,
      so a well-formed table lists each id once, in ascending order (KeyOrder). */
  datatype CantonEntry = CantonEntry(id: int, key: string)

  type CantonTable = seq<CantonEntry>

  /** `Object.keys(cantons)`. */
  function TableIds(table: CantonTable): (ids: seq<int>)
    ensures |ids| == |table|
    ensures forall i :: 0 <= i < |table| ==> ids[i] == table[i].id
  {
    seq(|table|, i requires 0 <= i < |table| => table[i].id)
  }

  /** The order `Object.keys` gives integer-like keys: strictly ascending, hence
      each id once. */
  ghost predicate KeyOrder(table: CantonTable)
  {
    forall i, j :: 0 <= i < j < |table| ==> table[i].id < table[j].id
  }

  /** `cantons[id]`: the key of the first entry with that id, if any. */
  function Lookup(table: CantonTable, id: int): (key: Option<string>)
    ensures key.Some? <==> id in TableIds(table)
    ensures key.Some? ==> CantonEntry(id, key.value) in table
  {
    if |table| == 0 then None
    else if table[0].id == id then Some(table[0].key)
    else
      assert TableIds(table) == [table[0].id] + TableIds(table[1..]);
      Lookup(table[1..], id)
  }

  /** In a table in key order, the lookup of an id is the key of its one entry. */
  lemma {:induction false} LookupUnique(table: CantonTable, i: nat)
    requires KeyOrder(table)
    requires i < |table|
    ensures Lookup(table, table[i].id) == Some(table[i].key)
  {
    if i > 0 {
      assert table[0].id < table[i].id;
      assert KeyOrder(table[1..]);
      assert table[1..][i - 1] == table[i];
      LookupUnique(table[1..], i - 1);
    }
  }

  // ----- municipalities -----

  /** `taxes.filter(m => m.gemeinde_id === id)[0]`: the first record for a
      municipality, if any. */
  function FirstRecordFor(taxes: seq<RateRecord>, id: int): (r: Option<RateRecord>)
    ensures r.None? <==> forall i :: 0 <= i < |taxes| ==> taxes[i].municipalityId != id
    ensures r.Some? ==> r.value.municipalityId == id
    ensures r.Some? ==> exists i :: (0 <= i < |taxes| && taxes[i] == r.value &&
              forall j :: 0 <= j < i ==> taxes[j].municipalityId != id)
  {
    if |taxes| == 0 then None
    else if taxes[0].municipalityId == id then Some(taxes[0])
    else
      var r := FirstRecordFor(taxes[1..], id);
      assert r.Some? ==> exists i :: (1 <= i < |taxes| && taxes[i] == r.value &&
               forall j :: 0 <= j < i ==> taxes[j].municipalityId != id) by {
        if r.Some? {
          var i :| 0 <= i < |taxes[1..]| && taxes[1..][i] == r.value &&
                   forall j :: 0 <= j < i ==> taxes[1..][j].municipalityId != id;
          assert taxes[i + 1] == r.value;
          assert forall j :: 0 <= j < i + 1 ==> taxes[j].municipalityId != id by {
            forall j | 0 <= j < i + 1 ensures taxes[j].municipalityId != id {
              if j > 0 { assert taxes[j] == taxes[1..][j - 1]; }
            }
          }
        }
      }
      r
  }

  /** Index of the last record for a municipality, -1 when there is none: the
      colouring loop writes each record's style in turn, so the last one wins. */
  function LastRecordIndex(recs: seq<RateRecord>, id: int): (j: int)
    ensures -1 <= j < |recs|
    ensures j >= 0 ==> recs[j].municipalityId == id
    ensures forall k :: j < k < |recs| ==> recs[k].municipalityId != id
  {
    if |recs| == 0 then -1
    else if recs[|recs| - 1].municipalityId == id then |recs| - 1
    else LastRecordIndex(recs[..|recs| - 1], id)
  }

  /** `taxes.map(m => parseInt(m.satz * colorMultiplier))`. */
  function Scaled(recs: seq<RateRecord>): (values: seq<int>)
    ensures |values| == |recs|
    ensures forall i :: 0 <= i < |recs| ==> values[i] == Scale(recs[i].rate)
  {
    seq(|recs|, i requires 0 <= i < |recs| => Scale(recs[i].rate))
  }

  /** Records are keyed uniquely by municipality id. */
  ghost predicate UniqueIds(recs: seq<RateRecord>)
  {
    forall i, j ::
      0 <= i < |recs| && 0 <= j < |recs| && recs[i].municipalityId == recs[j].municipalityId ==> i == j
  }

  /** The municipality layer after one colouring pass over `recs` with the
      given population extremes: a shape with a record takes the colour of its
      last record's scaled rate; every other shape is left as it was. */
  function PaintMunicipalities(shapes: map<int, MunicipalityShape>, recs: seq<RateRecord>,
                               lowest: int, highest: int, palette: Palette): map<int, MunicipalityShape>
  {
    map id | id in shapes ::
      var j := LastRecordIndex(recs, id);
      if j >= 0 then shapes[id].(style := Fill(ColourOf(palette, Scale(recs[j].rate), lowest, highest)))
      else shapes[id]
  }

  /** `colorizeMunicipalites` as a function of the layer and the records: the
      population is every record's scaled rate. */
  function RecolouredMunicipalities(shapes: map<int, MunicipalityShape>, recs: seq<RateRecord>,
                                    palette: Palette): (result: map<int, MunicipalityShape>)
    ensures result.Keys == shapes.Keys
  {
    if |recs| == 0 then shapes
    else PaintMunicipalities(shapes, recs, Min(Scaled(recs)), Max(Scaled(recs)), palette)
  }

  /** Recolouring only restyles: every shape keeps its `active` class; a shape
      without a record keeps its style; a shape with records takes the colour of
      the bucket of its last record's scaled rate within the population of all
      scaled rates. */
  lemma RecolouredMunicipalitiesSpec(shapes: map<int, MunicipalityShape>, recs: seq<RateRecord>, palette: Palette)
    ensures var result := RecolouredMunicipalities(shapes, recs, palette);
            && (forall id :: id in shapes ==> result[id].active == shapes[id].active)
            && (forall id :: id in shapes && (forall i :: 0 <= i < |recs| ==> recs[i].municipalityId != id) ==>
                  result[id] == shapes[id])
            && (forall id :: id in shapes && LastRecordIndex(recs, id) >= 0 ==>
                  result[id].style == Fill(ColourOf(palette, Scale(recs[LastRecordIndex(recs, id)].rate),
                                                    Min(Scaled(recs)), Max(Scaled(recs)))))
  {
  }

  lemma PaintMunicipalitiesNothing(shapes: map<int, MunicipalityShape>, lowest: int, highest: int,
                                   palette: Palette)
    ensures PaintMunicipalities(shapes, [], lowest, highest, palette) == shapes
  {
  }

  /** One step of the colouring loop: painting one more record updates only that
      record's shape, when it is drawn. */
  lemma PaintMunicipalitiesStep(shapes: map<int, MunicipalityShape>, recs: seq<RateRecord>, r: RateRecord,
                                lowest: int, highest: int, palette: Palette)
    ensures var before := PaintMunicipalities(shapes, recs, lowest, highest, palette);
            PaintMunicipalities(shapes, recs + [r], lowest, highest, palette) ==
              if r.municipalityId in shapes
              then before[r.municipalityId := before[r.municipalityId].(
                     style := Fill(ColourOf(palette, Scale(r.rate), lowest, highest)))]
              else before
  {
    var recs' := recs + [r];
    assert recs'[..|recs'| - 1] == recs;
    forall id | id in shapes
      ensures LastRecordIndex(recs', id) == if id == r.municipalityId then |recs| else LastRecordIndex(recs, id)
    {
    }
  }

  /** The last record for a municipality is its only record when ids are unique. */
  lemma LastRecordIsUnique(recs: seq<RateRecord>, id: int, k: int)
    requires UniqueIds(recs)
    requires 0 <= k < |recs| && recs[k].municipalityId == id
    ensures LastRecordIndex(recs, id) == k
  {
  }

  /** Every scaled rate of `b` also occurs in `a`'s scaled rates when every record of
      `b` occurs in `a`. */
  lemma ScaledExtremesCovered(a: seq<RateRecord>, b: seq<RateRecord>)
    requires |a| > 0 && |b| > 0
    requires forall i :: 0 <= i < |b| ==> b[i] in a
    ensures Min(Scaled(a)) <= Min(Scaled(b)) && Max(Scaled(b)) <= Max(Scaled(a))
  {
    var sb := Scaled(b);
    var i :| 0 <= i < |b| && sb[i] == Min(sb);
    var k :| 0 <= k < |a| && a[k] == b[i];
    assert Scaled(a)[k] == Min(sb);
    var i' :| 0 <= i' < |b| && sb[i'] == Max(sb);
    var k' :| 0 <= k' < |a| && a[k'] == b[i'];
    assert Scaled(a)[k'] == Max(sb);
  }

  /** Under unique ids and equal multisets, a municipality has a record in one
      sequence exactly when it has one in the other, and it is the same record. */
  lemma SameLastRecord(a: seq<RateRecord>, b: seq<RateRecord>, id: int)
    requires UniqueIds(a) && UniqueIds(b)
    requires forall i :: 0 <= i < |a| ==> a[i] in b
    requires forall i :: 0 <= i < |b| ==> b[i] in a
    ensures LastRecordIndex(a, id) >= 0 <==> LastRecordIndex(b, id) >= 0
    ensures LastRecordIndex(a, id) >= 0 ==> a[LastRecordIndex(a, id)] == b[LastRecordIndex(b, id)]
  {
    var ja, jb := LastRecordIndex(a, id), LastRecordIndex(b, id);
    if ja >= 0 {
      var k :| 0 <= k < |b| && b[k] == a[ja];
      LastRecordIsUnique(b, id, k);
    }
    if jb >= 0 {
      var k :| 0 <= k < |a| && a[k] == b[jb];
      LastRecordIsUnique(a, id, k);
    }
  }

  /** Two record sequences that give every drawn municipality the same last
      record paint the layer alike. */
  lemma PaintSameRecords(shapes: map<int, MunicipalityShape>, a: seq<RateRecord>, b: seq<RateRecord>,
                         lowest: int, highest: int, palette: Palette)
    requires forall id :: id in shapes ==>
               (LastRecordIndex(a, id) >= 0 <==> LastRecordIndex(b, id) >= 0)
    requires forall id :: id in shapes && LastRecordIndex(a, id) >= 0 ==>
               a[LastRecordIndex(a, id)] == b[LastRecordIndex(b, id)]
    ensures PaintMunicipalities(shapes, a, lowest, highest, palette) ==
            PaintMunicipalities(shapes, b, lowest, highest, palette)
  {
  }

  /** Permuting the rate records changes no municipality's colour. */
  lemma RecolourMunicipalitiesPermutation(shapes: map<int, MunicipalityShape>,
                                          a: seq<RateRecord>, b: seq<RateRecord>, palette: Palette)
    requires UniqueIds(a) && UniqueIds(b)
    requires multiset(a) == multiset(b)
    ensures RecolouredMunicipalities(shapes, a, palette) == RecolouredMunicipalities(shapes, b, palette)
  {
    assert |a| == |multiset(a)| == |multiset(b)| == |b|;
    if |a| > 0 {
      assert forall i :: 0 <= i < |a| ==> a[i] in multiset(b);
      assert forall i :: 0 <= i < |b| ==> b[i] in multiset(a);
      ScaledExtremesCovered(a, b);
      ScaledExtremesCovered(b, a);
      forall id | id in shapes
        ensures LastRecordIndex(a, id) >= 0 <==> LastRecordIndex(b, id) >= 0
        ensures LastRecordIndex(a, id) >= 0 ==> a[LastRecordIndex(a, id)] == b[LastRecordIndex(b, id)]
      {
        SameLastRecord(a, b, id);
      }
      PaintSameRecords(shapes, a, b, Min(Scaled(a)), Max(Scaled(a)), palette);
    }
  }

  // ----- cantons -----

  /** `taxes.filter(m => m.kanton_id === key)`. */
  function Members(taxes: seq<RateRecord>, key: string): (members: seq<RateRecord>)
    ensures |members| <= |taxes|
    ensures forall i :: 0 <= i < |members| ==> members[i].cantonKey == key
  {
    if |taxes| == 0 then []
    else (if taxes[0].cantonKey == key then [taxes[0]] else []) + Members(taxes[1..], key)
  }

  /** The members of a canton are exactly the records carrying its key, each
      kept as often as it occurs among the rates. */
  lemma {:induction false} MembersSpec(taxes: seq<RateRecord>, key: string)
    ensures forall r :: r in Members(taxes, key) <==> r in taxes && r.cantonKey == key
    ensures forall r :: multiset(Members(taxes, key))[r] == if r.cantonKey == key then multiset(taxes)[r] else 0
  {
    if |taxes| > 0 {
      MembersSpec(taxes[1..], key);
      assert taxes == [taxes[0]] + taxes[1..];
    }
  }

  /** The filter keeps source order: filtering a concatenation concatenates the
      filtered parts (with MembersSingle, this determines the filter). */
  lemma {:induction false} MembersConcat(x: seq<RateRecord>, y: seq<RateRecord>, key: string)
    ensures Members(x + y, key) == Members(x, key) + Members(y, key)
  {
    if |x| == 0 {
      assert x + y == y;
    } else {
      var head := if x[0].cantonKey == key then [x[0]] else [];
      assert (x + y)[0] == x[0];
      assert (x + y)[1..] == x[1..] + y;
      MembersConcat(x[1..], y, key);
      assert Members(x + y, key) == head + Members(x[1..] + y, key);
      assert Members(x, key) == head + Members(x[1..], key);
    }
  }

  /** A single record is kept exactly when it carries the key. */
  lemma MembersSingle(r: RateRecord, key: string)
    ensures Members([r], key) == if r.cantonKey == key then [r] else []
  {
    assert [r][1..] == [];
  }

  /** `muns[0]` is the earliest record carrying the key. */
  lemma {:induction false} MembersFirst(taxes: seq<RateRecord>, key: string)
    requires |Members(taxes, key)| > 0
    ensures exists i :: 0 <= i < |taxes| && taxes[i] == Members(taxes, key)[0] &&
              forall j :: 0 <= j < i ==> taxes[j].cantonKey != key
  {
    if taxes[0].cantonKey == key {
      assert taxes[0] == Members(taxes, key)[0];
    } else {
      MembersFirst(taxes[1..], key);
      var i :| 0 <= i < |taxes[1..]| && taxes[1..][i] == Members(taxes[1..], key)[0] &&
               forall j :: 0 <= j < i ==> taxes[1..][j].cantonKey != key;
      assert taxes[i + 1] == Members(taxes, key)[0];
      assert forall j :: 0 <= j < i + 1 ==> taxes[j].cantonKey != key by {
        forall j | 0 <= j < i + 1 ensures taxes[j].cantonKey != key {
          if j > 0 { assert taxes[j] == taxes[1..][j - 1]; }
        }
      }
    }
  }

  /** Permuting the rates permutes every canton's members. */
  lemma MembersPermutation(a: seq<RateRecord>, b: seq<RateRecord>, key: string)
    requires multiset(a) == multiset(b)
    ensures multiset(Members(a, key)) == multiset(Members(b, key))
  {
    MembersSpec(a, key);
    MembersSpec(b, key);
  }

  /** `muns.map(m => m.satz)`. */
  function Rates(members: seq<RateRecord>): (rates: seq<real>)
    ensures |rates| == |members|
    ensures forall i :: 0 <= i < |members| ==> rates[i] == members[i].rate
  {
    seq(|members|, i requires 0 <= i < |members| => members[i].rate)
  }

  lemma RatesConcat(x: seq<RateRecord>, y: seq<RateRecord>)
    ensures Rates(x + y) == Rates(x) + Rates(y)
  {
  }

  /** Removing the record at position i takes its rate off the total. */
  lemma RateSumRemove(m: seq<RateRecord>, i: nat)
    requires i < |m|
    ensures Sum(Rates(m)) == Sum(Rates(m[..i] + m[i + 1..])) + m[i].rate
  {
    assert m == m[..i] + [m[i]] + m[i + 1..];
    RatesConcat(m[..i] + [m[i]], m[i + 1..]);
    RatesConcat(m[..i], [m[i]]);
    RatesConcat(m[..i], m[i + 1..]);
    SumConcat(Rates(m[..i]) + Rates([m[i]]), Rates(m[i + 1..]));
    SumConcat(Rates(m[..i]), Rates([m[i]]));
    SumConcat(Rates(m[..i]), Rates(m[i + 1..]));
  }

  /** Removing the record at position i removes one occurrence of it. */
  lemma RemoveOccurrence(m: seq<RateRecord>, i: nat)
    requires i < |m|
    ensures multiset(m[..i] + m[i + 1..]) == multiset(m) - multiset{m[i]}
  {
    assert m == m[..i] + [m[i]] + m[i + 1..];
  }

  /** The total of the members' rates does not depend on their order. */
  lemma {:induction false} RateSumPermutation(m1: seq<RateRecord>, m2: seq<RateRecord>)
    requires multiset(m1) == multiset(m2)
    ensures |m1| == |m2|
    ensures Sum(Rates(m1)) == Sum(Rates(m2))
  {
    assert |m1| == |multiset(m1)| == |multiset(m2)| == |m2|;
    if |m1| > 0 {
      var n := |m1| - 1;
      assert m1[n] in multiset(m2);
      var i :| 0 <= i < |m2| && m2[i] == m1[n];
      RemoveOccurrence(m1, n);
      RemoveOccurrence(m2, i);
      assert m1[..n] + m1[n + 1..] == m1[..n];
      RateSumPermutation(m1[..n], m2[..i] + m2[i + 1..]);
      RateSumRemove(m1, n);
      RateSumRemove(m2, i);
    }
  }

  /** `rates.reduce((a, b) => a + b) / rates.length`; None where `reduce` without
      an initial value throws, on no rates at all. */
  function Average(rates: seq<real>): (avg: Option<real>)
    ensures avg.None? <==> |rates| == 0
  {
    if |rates| == 0 then None else Some(Sum(rates) / |rates| as real)
  }

  /** The mean of some rates lies between their smallest and largest. */
  lemma AverageWithin(rates: seq<real>)
    requires |rates| > 0
    ensures MinReal(rates) <= Average(rates).value <= MaxReal(rates)
  {
    MeanWithin(rates, MinReal(rates), MaxReal(rates));
  }

  /** The mean of values within [lo, hi] is within [lo, hi]. */
  lemma MeanWithin(s: seq<real>, lo: real, hi: real)
    requires |s| > 0
    requires forall i :: 0 <= i < |s| ==> lo <= s[i] <= hi
    ensures lo <= Sum(s) / |s| as real <= hi
  {
    SumBounds(s, lo, hi);
    MeanBounds(Sum(s), |s| as real, lo, hi);
  }

  lemma MeanBounds(total: real, n: real, lo: real, hi: real)
    requires n > 0.0
    requires n * lo <= total <= n * hi
    ensures lo <= total / n <= hi
  {
  }

  /** The `averageRate` a canton shape receives: the mean rate of the records
      whose canton key is the one the lookup gives for the shape's id; None when
      the id has no key or the key has no record (the averaging throws). */
  function CantonRate(table: CantonTable, taxes: seq<RateRecord>, id: int): Option<real>
  {
    match Lookup(table, id)
    case None => None
    case Some(key) => Average(Rates(Members(taxes, key)))
  }

  /** A canton shape gets an average exactly when its id has a key in the lookup
      and some record carries that key. */
  lemma CantonRateDefined(table: CantonTable, taxes: seq<RateRecord>, id: int)
    ensures CantonRate(table, taxes, id).Some? <==>
            Lookup(table, id).Some? && |Members(taxes, Lookup(table, id).value)| > 0
  {
  }

  /** The canton mean lies within the range of its members' rates. */
  lemma CantonRateWithin(table: CantonTable, taxes: seq<RateRecord>, id: int, lo: real, hi: real)
    requires Lookup(table, id).Some?
    requires forall r :: r in Members(taxes, Lookup(table, id).value) ==> lo <= r.rate <= hi
    requires |Members(taxes, Lookup(table, id).value)| > 0
    ensures CantonRate(table, taxes, id).Some?
    ensures lo <= CantonRate(table, taxes, id).value <= hi
  {
    MembersSpec(taxes, Lookup(table, id).value);
    var rates := Rates(Members(taxes, Lookup(table, id).value));
    AverageWithin(rates);
    var i :| 0 <= i < |rates| && rates[i] == MinReal(rates);
    var j :| 0 <= j < |rates| && rates[j] == MaxReal(rates);
    assert Members(taxes, Lookup(table, id).value)[i] in Members(taxes, Lookup(table, id).value);
    assert Members(taxes, Lookup(table, id).value)[j] in Members(taxes, Lookup(table, id).value);
  }

  /** A canton's average does not depend on the order of the rate records. */
  lemma CantonRatePermutation(table: CantonTable, a: seq<RateRecord>, b: seq<RateRecord>, id: int)
    requires multiset(a) == multiset(b)
    ensures CantonRate(table, a, id) == CantonRate(table, b, id)
  {
    if Lookup(table, id).Some? {
      var key := Lookup(table, id).value;
      MembersPermutation(a, b, key);
      RateSumPermutation(Members(a, key), Members(b, key));
    }
  }

  /** Position, in document order, of the first canton shape whose average
      cannot be computed; the length of `order` when every one can. */
  function FirstUnaveraged(order: seq<int>, table: CantonTable, taxes: seq<RateRecord>): (stop: nat)
    ensures stop <= |order|
    ensures forall j :: 0 <= j < stop ==> CantonRate(table, taxes, order[j]).Some?
    ensures stop < |order| ==> CantonRate(table, taxes, order[stop]).None?
  {
    if |order| == 0 then 0
    else if CantonRate(table, taxes, order[0]).None? then 0
    else 1 + FirstUnaveraged(order[1..], table, taxes)
  }

  /** The canton layer after setting the `averageRate` of the listed ids. */
  function Averaged(shapes: map<int, CantonShape>, ids: seq<int>, table: CantonTable,
                    taxes: seq<RateRecord>): (result: map<int, CantonShape>)
    ensures result.Keys == shapes.Keys
    ensures forall id :: id in shapes ==>
              result[id].style == shapes[id].style && result[id].active == shapes[id].active
    ensures forall id :: id in shapes && id in ids ==> result[id].averageRate == CantonRate(table, taxes, id)
    ensures forall id :: id in shapes && id !in ids ==> result[id] == shapes[id]
  {
    map id | id in shapes ::
      if id in ids then shapes[id].(averageRate := CantonRate(table, taxes, id)) else shapes[id]
  }

  lemma AveragedNothing(shapes: map<int, CantonShape>, table: CantonTable, taxes: seq<RateRecord>)
    ensures Averaged(shapes, [], table, taxes) == shapes
  {
  }

  /** One step of the averaging loop. */
  lemma AveragedStep(shapes: map<int, CantonShape>, ids: seq<int>, id: int, table: CantonTable,
                     taxes: seq<RateRecord>)
    requires id in shapes
    ensures var before := Averaged(shapes, ids, table, taxes);
            Averaged(shapes, ids + [id], table, taxes) ==
              before[id := before[id].(averageRate := CantonRate(table, taxes, id))]
  {
    var before := Averaged(shapes, ids, table, taxes);
    var after := Averaged(shapes, ids + [id], table, taxes);
    forall k | k in shapes
      ensures after[k] == before[id := before[id].(averageRate := CantonRate(table, taxes, id))][k]
    {
      assert k in ids + [id] <==> k in ids || k == id;
    }
  }

  /** The canton layer after the `averageRate` pass: the shapes before the first
      failing one, in document order, hold their canton's mean rate; the failing
      one and those after it keep their previous attribute. */
  function AveragePass(shapes: map<int, CantonShape>, order: seq<int>, table: CantonTable,
                       taxes: seq<RateRecord>): (result: map<int, CantonShape>)
    ensures result.Keys == shapes.Keys
  {
    Averaged(shapes, order[..FirstUnaveraged(order, table, taxes)], table, taxes)
  }

  /** The pass only sets averages: styles and `active` classes are kept; the
      shapes before the first failing one in document order hold their canton's
      mean rate; every other shape is left as it was. */
  lemma AveragePassSpec(shapes: map<int, CantonShape>, order: seq<int>, table: CantonTable,
                        taxes: seq<RateRecord>)
    ensures var result := AveragePass(shapes, order, table, taxes);
            && (forall id :: id in shapes ==>
                  result[id].style == shapes[id].style && result[id].active == shapes[id].active)
            && (forall j :: 0 <= j < FirstUnaveraged(order, table, taxes) && order[j] in shapes ==>
                  result[order[j]].averageRate == CantonRate(table, taxes, order[j]) &&
                  result[order[j]].averageRate.Some?)
            && (forall id :: id in shapes && id !in order[..FirstUnaveraged(order, table, taxes)] ==>
                  result[id] == shapes[id])
  {
    var stop := FirstUnaveraged(order, table, taxes);
    assert forall j :: 0 <= j < stop ==> order[j] in order[..stop];
  }

  /** The averaging pass never unsets an average; when it runs through, every
      listed shape has a key with records and holds an average. */
  lemma AveragePassSetsAverages(shapes: map<int, CantonShape>, order: seq<int>, table: CantonTable,
                                taxes: seq<RateRecord>)
    ensures var result := AveragePass(shapes, order, table, taxes);
            forall id :: id in shapes ==>
              && (shapes[id].averageRate.Some? ==> result[id].averageRate.Some?)
              && (id in order && FirstUnaveraged(order, table, taxes) == |order| ==>
                    && Lookup(table, id).Some? && |Members(taxes, Lookup(table, id).value)| > 0
                    && result[id].averageRate.Some?)
  {
    var stop := FirstUnaveraged(order, table, taxes);
    forall id | id in shapes && id in order && stop == |order|
      ensures Lookup(table, id).Some? && |Members(taxes, Lookup(table, id).value)| > 0
    {
      var j :| 0 <= j < |order| && order[j] == id;
      CantonRateDefined(table, taxes, id);
    }
  }

  /** The averaging pass stops at the same place for two record sequences that
      give every canton the same average. */
  lemma {:induction false} FirstUnaveragedSame(order: seq<int>, table: CantonTable, a: seq<RateRecord>,
                                               b: seq<RateRecord>)
    requires forall id :: CantonRate(table, a, id) == CantonRate(table, b, id)
    ensures FirstUnaveraged(order, table, a) == FirstUnaveraged(order, table, b)
  {
    if |order| > 0 && CantonRate(table, a, order[0]).Some? {
      FirstUnaveragedSame(order[1..], table, a, b);
    }
  }

  /** Permuting the rate records changes neither where the averaging pass stops
      nor any average it sets. */
  lemma AveragePassPermutation(shapes: map<int, CantonShape>, order: seq<int>, table: CantonTable,
                               a: seq<RateRecord>, b: seq<RateRecord>)
    requires multiset(a) == multiset(b)
    ensures FirstUnaveraged(order, table, a) == FirstUnaveraged(order, table, b)
    ensures AveragePass(shapes, order, table, a) == AveragePass(shapes, order, table, b)
  {
    forall id ensures CantonRate(table, a, id) == CantonRate(table, b, id) {
      CantonRatePermutation(table, a, b, id);
    }
    FirstUnaveragedSame(order, table, a, b);
  }

  /** Permuting the rate records changes no canton colour: the averaged layer,
      and hence its recolouring, is the same. */
  lemma RecolourCantonsPermutation(shapes: map<int, CantonShape>, order: seq<int>, table: CantonTable,
                                   a: seq<RateRecord>, b: seq<RateRecord>, palette: Palette)
    requires multiset(a) == multiset(b)
    requires forall i :: 0 <= i < |order| ==> order[i] in shapes
    ensures var averagedA := AveragePass(shapes, order, table, a);
            var averagedB := AveragePass(shapes, order, table, b);
            RecolouredCantons(averagedA, order, TableIds(table), palette) ==
            RecolouredCantons(averagedB, order, TableIds(table), palette)
  {
    AveragePassPermutation(shapes, order, table, a, b);
  }

  /** `parseInt(attr("averageRate") * colorMultiplier)`: an unset attribute reads
      as null, which multiplies to 0. */
  function CantonValue(shape: CantonShape): int
  {
    match shape.averageRate
    case None => 0
    case Some(avg) => Scale(avg)
  }

  /** Scaled averages of every canton shape, in document order. */
  function CantonPopulation(order: seq<int>, shapes: map<int, CantonShape>): (values: seq<int>)
    requires forall i :: 0 <= i < |order| ==> order[i] in shapes
    ensures |values| == |order|
    ensures forall i :: 0 <= i < |order| ==> values[i] == CantonValue(shapes[order[i]])
  {
    seq(|order|, i requires 0 <= i < |order| => CantonValue(shapes[order[i]]))
  }

  /** The canton layer after painting the listed ids with the given population
      extremes. Only styles change. */
  function PaintCantons(shapes: map<int, CantonShape>, ids: seq<int>, lowest: int, highest: int,
                        palette: Palette): (result: map<int, CantonShape>)
    ensures result.Keys == shapes.Keys
    ensures forall id :: id in shapes ==>
              result[id].averageRate == shapes[id].averageRate && result[id].active == shapes[id].active
    ensures forall id :: id in shapes && id !in ids ==> result[id] == shapes[id]
  {
    map id | id in shapes ::
      if id in ids then shapes[id].(style := Fill(ColourOf(palette, CantonValue(shapes[id]), lowest, highest)))
      else shapes[id]
  }

  lemma PaintCantonsNothing(shapes: map<int, CantonShape>, lowest: int, highest: int, palette: Palette)
    ensures PaintCantons(shapes, [], lowest, highest, palette) == shapes
  {
  }

  lemma PaintCantonsEmpty(ids: seq<int>, lowest: int, highest: int, palette: Palette)
    ensures PaintCantons(map[], ids, lowest, highest, palette) == map[]
  {
  }

  /** One step of the painting loop. */
  lemma PaintCantonsStep(shapes: map<int, CantonShape>, ids: seq<int>, id: int, lowest: int, highest: int,
                         palette: Palette)
    requires id in shapes
    ensures var before := PaintCantons(shapes, ids, lowest, highest, palette);
            PaintCantons(shapes, ids + [id], lowest, highest, palette) ==
              before[id := before[id].(style := Fill(ColourOf(palette, CantonValue(before[id]), lowest, highest)))]
  {
    var before := PaintCantons(shapes, ids, lowest, highest, palette);
    var after := PaintCantons(shapes, ids + [id], lowest, highest, palette);
    forall k | k in shapes
      ensures after[k] == before[id := before[id].(style := Fill(ColourOf(palette, CantonValue(before[id]), lowest, highest)))][k]
    {
      assert k in ids + [id] <==> k in ids || k == id;
    }
  }

  /** Position of the first lookup id without a drawn shape (reading its
      attribute throws); the length of `keys` when all are drawn. */
  function FirstMissing(keys: seq<int>, shapes: map<int, CantonShape>): (stop: nat)
    ensures stop <= |keys|
    ensures forall j :: 0 <= j < stop ==> keys[j] in shapes
    ensures stop < |keys| ==> keys[stop] !in shapes
  {
    if |keys| == 0 then 0
    else if keys[0] !in shapes then 0
    else 1 + FirstMissing(keys[1..], shapes)
  }

  /** `colorizeCantons` as a function of the layer: the population is every
      drawn canton's scaled average; the lookup ids are painted in order up to
      the first one that has no shape. */
  function RecolouredCantons(shapes: map<int, CantonShape>, order: seq<int>, keys: seq<int>,
                             palette: Palette): (result: map<int, CantonShape>)
    requires forall i :: 0 <= i < |order| ==> order[i] in shapes
    ensures result.Keys == shapes.Keys
    ensures forall id :: id in shapes ==>
              result[id].averageRate == shapes[id].averageRate && result[id].active == shapes[id].active
  {
    if |order| == 0 then shapes
    else
      var population := CantonPopulation(order, shapes);
      PaintCantons(shapes, keys[..FirstMissing(keys, shapes)], Min(population), Max(population), palette)
  }

  /** When every lookup id is drawn and every drawn id is in the lookup, every
      canton ends up filled with the colour of its own scaled average. */
  lemma RecolourFillsEveryCanton(shapes: map<int, CantonShape>, order: seq<int>, keys: seq<int>,
                                 palette: Palette)
    requires |order| > 0
    requires forall i :: 0 <= i < |order| ==> order[i] in shapes
    requires FirstMissing(keys, shapes) == |keys|
    requires forall id :: id in shapes ==> id in keys
    ensures forall id :: id in shapes ==>
              RecolouredCantons(shapes, order, keys, palette)[id].style ==
              Fill(ColourOf(palette, CantonValue(shapes[id]),
                            Min(CantonPopulation(order, shapes)), Max(CantonPopulation(order, shapes))))
  {
    assert keys[..FirstMissing(keys, shapes)] == keys;
  }

  /** A background click is idempotent: recolouring twice is recolouring once. */
  lemma RecolourIdempotent(shapes: map<int, CantonShape>, order: seq<int>, keys: seq<int>, palette: Palette)
    requires forall i :: 0 <= i < |order| ==> order[i] in shapes
    ensures var once := RecolouredCantons(shapes, order, keys, palette);
            RecolouredCantons(once, order, keys, palette) == once
  {
    if |order| > 0 {
      var population := CantonPopulation(order, shapes);
      var painted := keys[..FirstMissing(keys, shapes)];
      var once := PaintCantons(shapes, painted, Min(population), Max(population), palette);
      assert once == RecolouredCantons(shapes, order, keys, palette);
      PaintKeepsPopulation(shapes, order, painted, Min(population), Max(population), palette);
      FirstMissingSameKeys(keys, shapes, once);
      PaintCantonsIdempotent(shapes, painted, Min(population), Max(population), palette);
    }
  }

  /** Painting changes no average, hence no scaled value of the population. */
  lemma PaintKeepsPopulation(shapes: map<int, CantonShape>, order: seq<int>, ids: seq<int>,
                             lowest: int, highest: int, palette: Palette)
    requires forall i :: 0 <= i < |order| ==> order[i] in shapes
    ensures var once := PaintCantons(shapes, ids, lowest, highest, palette);
            (forall i :: 0 <= i < |order| ==> order[i] in once) &&
            CantonPopulation(order, once) == CantonPopulation(order, shapes)
  {
    var once := PaintCantons(shapes, ids, lowest, highest, palette);
    forall i | 0 <= i < |order|
      ensures CantonPopulation(order, once)[i] == CantonPopulation(order, shapes)[i]
    {
      assert once[order[i]].averageRate == shapes[order[i]].averageRate;
    }
  }

  /** Painting the same ids with the same extremes twice is painting them once:
      painting changes no average, so the second pass computes the same colours. */
  lemma PaintCantonsIdempotent(shapes: map<int, CantonShape>, ids: seq<int>, lowest: int, highest: int,
                               palette: Palette)
    ensures var once := PaintCantons(shapes, ids, lowest, highest, palette);
            PaintCantons(once, ids, lowest, highest, palette) == once
  {
    var once := PaintCantons(shapes, ids, lowest, highest, palette);
    forall id | id in shapes
      ensures CantonValue(once[id]) == CantonValue(shapes[id])
    {
    }
  }

  lemma {:induction false} FirstMissingSameKeys(keys: seq<int>, s1: map<int, CantonShape>, s2: map<int, CantonShape>)
    requires s1.Keys == s2.Keys
    ensures FirstMissing(keys, s1) == FirstMissing(keys, s2)
  {
    if |keys| > 0 && keys[0] in s1 {
      FirstMissingSameKeys(keys[1..], s1, s2);
    }
  }

  /** After a successful recolouring in which every drawn canton is in the
      lookup, neutralising the clicked canton leaves it the one and only
      neutral canton. */
  lemma ClickLeavesOneNeutral(shapes: map<int, CantonShape>, order: seq<int>, keys: seq<int>,
                              palette: Palette, clicked: int)
    requires |order| > 0
    requires forall i :: 0 <= i < |order| ==> order[i] in shapes
    requires FirstMissing(keys, shapes) == |keys|
    requires forall id :: id in shapes ==> id in keys
    requires clicked in shapes
    ensures var painted := RecolouredCantons(shapes, order, keys, palette);
            var after := painted[clicked := painted[clicked].(style := Neutral)];
            forall id :: id in after ==> (after[id].style == Neutral <==> id == clicked)
  {
    RecolourFillsEveryCanton(shapes, order, keys, palette);
  }
}
