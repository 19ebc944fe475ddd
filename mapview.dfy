/** The map component as an object: the shapes of both layers with their render
    state, the tooltip, the legend and the viewport fields that its handlers
    update in place. Each method is one handler or one step of the component's
    effect, and its contract ties the new state to the specification functions
    of the Regions and Legend modules. */
module MapView {
  import opened Basics
  import opened Binner
  import opened Regions
  import opened Legend

  /** Tooltip position relative to the pointer. */
  const TooltipOffsetX := -80
  const TooltipOffsetY := 50

  /** Text of the tooltip: a municipality's name and rate, or a canton's name and
      average rate (shown with the average sign). Percent formatting is not
      part of this model. */
  datatype Label = NoLabel | MunicipalityLabel(name: string, rate: real) | CantonLabel(name: string, averageRate: real)

  datatype Tooltip = Tooltip(hidden: bool, left: int, top: int, text: Label)

  class ChoroplethMap {
    /** `colors` and `cantons` of the component's constants. */
    const palette: Palette
    const lookup: CantonTable

    /** `firstRender.current`. */
    var firstRender: bool

    /** Viewport and legend placement. */
    var mapWidth: nat
    var mapHeight: int
    var axisMarginLeft: real
    /** Whether `projection` has been created (the boundary data has loaded). */
    var projected: bool
    /** `width`/`height` attributes of the svg. */
    var svgSize: (nat, int)
    /** `translate(...)` of the axis group. */
    var axisOffset: (real, int)
    /** Stops of the legend gradient; empty until the axis is drawn. */
    var gradient: seq<GradientStop>
    /** Tick values of the axis; None while undefined. */
    var ticks: Option<seq<real>>

    /** Municipality paths by id. */
    var municipalities: map<int, MunicipalityShape>
    /** Canton paths by id, and their ids in document order. */
    var cantons: map<int, CantonShape>
    var cantonOrder: seq<int>

    /** The rate records captured by the hover/click handlers of each layer when
        they were registered; None while the layer's paths carry no handlers. */
    var municipalityListeners: Option<seq<RateRecord>>
    var cantonListeners: Option<seq<RateRecord>>

    var tooltip: Tooltip

    /** The canton paths are exactly those listed in document order; handlers
        are registered on the canton layer only after every canton path received
        its average, so
        while they are registered every canton id has a key in the lookup whose
        canton has records in the captured rates, and its `averageRate` is set. */
    ghost predicate Valid()
      reads this`cantons, this`cantonOrder, this`cantonListeners
    {
      && (forall i :: 0 <= i < |cantonOrder| ==> cantonOrder[i] in cantons)
      && (forall id :: id in cantons ==> id in cantonOrder)
      && (cantonListeners.Some? ==>
            forall id :: id in cantons ==>
              && Lookup(lookup, id).Some?
              && |Members(cantonListeners.value, Lookup(lookup, id).value)| > 0
              && cantons[id].averageRate.Some?)
    }

    /** The component before its first effect ran, in a window of the given size.
        The lookup is an object literal, so its ids come in key order; `lookup` is
        constant, so this holds for the component's whole life. */
    constructor (palette: Palette, lookup: CantonTable, width: nat, height: int)
      requires KeyOrder(lookup)
      ensures Valid() && KeyOrder(this.lookup)
      ensures this.palette == palette && this.lookup == lookup
      ensures !firstRender && !projected
      ensures mapWidth == width && mapHeight == height
      ensures axisMarginLeft == LegendMarginLeft(width, height)
      ensures municipalities == map[] && cantons == map[] && cantonOrder == []
      ensures municipalityListeners.None? && cantonListeners.None?
      ensures gradient == [] && ticks.None?
    {
      this.palette := palette;
      this.lookup := lookup;
      firstRender := false;
      mapWidth, mapHeight := width, height;
      axisMarginLeft := LegendMarginLeft(width, height);
      projected := false;
      svgSize := (0, 0);
      axisOffset := (0.0, 0);
      gradient := [];
      ticks := None;
      municipalities, cantons, cantonOrder := map[], map[], [];
      municipalityListeners, cantonListeners := None, None;
      tooltip := Tooltip(true, 0, 0, NoLabel);
    }

    /** The component's effect, run on mounting and whenever the rate records
        change: the first run sets up the drawing surface (the boundary data and
        the rate fetch then arrive as TopologyLoaded and FetchSettled); every later
        run recolours both layers and, when the canton update did not throw,
        recomputes the axis ticks. */
    method Effect(taxes: seq<RateRecord>) returns (ok: bool)
      requires Valid()
      modifies this`firstRender, this`municipalities, this`cantons, this`cantonOrder,
               this`municipalityListeners, this`cantonListeners, this`tooltip, this`svgSize,
               this`gradient, this`ticks
      ensures Valid()
      ensures firstRender
      ensures !old(firstRender) ==>
                && ok
                && municipalities == map[] && cantons == map[] && cantonOrder == []
                && municipalityListeners.None? && cantonListeners.None?
                && tooltip.hidden && svgSize == (mapWidth, mapHeight)
                && gradient == [] && ticks.None?
                && projected == old(projected)
      ensures old(firstRender) ==>
                && MunicipalitiesUpdated(taxes, old(municipalities))
                && CantonsUpdated(taxes, ok, old(cantons), old(cantonListeners))
                && ticks == (if ok then TickValues(Rates(taxes)) else old(ticks))
      ensures old(firstRender) ==>
                && cantonOrder == old(cantonOrder)
                && tooltip == old(tooltip) && gradient == old(gradient)
                && projected == old(projected) && svgSize == old(svgSize)
    {
      if !firstRender {
        SetupSvg();
        firstRender := true;
        ok := true;
        return;
      }
      ok := Rerender(taxes);
    }

    /** The municipality layer after its update, given the layer before it: the
        handlers capture the new records and the layer is recoloured. */
    ghost predicate MunicipalitiesUpdated(taxes: seq<RateRecord>, municipalities0: map<int, MunicipalityShape>)
      reads this`municipalities, this`municipalityListeners
    {
      && municipalities == RecolouredMunicipalities(municipalities0, taxes, palette)
      && municipalityListeners == Some(taxes)
    }

    /** The canton layer after its update, given the layer and the registered
        records before it: the averages are recomputed in document order up to
        the first canton without records; when none is missing, the handlers
        capture the new records and the layer is recoloured, which succeeds when
        every lookup id has a path. */
    ghost predicate CantonsUpdated(taxes: seq<RateRecord>, ok: bool, cantons0: map<int, CantonShape>,
                                   cantonListeners0: Option<seq<RateRecord>>)
      reads this`cantons, this`cantonOrder, this`cantonListeners
    {
      && (forall i :: 0 <= i < |cantonOrder| ==> cantonOrder[i] in cantons0)
      && (var averaged := AveragePass(cantons0, cantonOrder, lookup, taxes);
          if FirstUnaveraged(cantonOrder, lookup, taxes) < |cantonOrder| then
            !ok && cantons == averaged && cantonListeners == cantonListeners0
          else
            && cantonListeners == Some(taxes)
            && cantons == RecolouredCantons(averaged, cantonOrder, TableIds(lookup), palette)
            && ok == (FirstMissing(TableIds(lookup), averaged) == |lookup|))
    }

    /** A run of the effect after the first: recolours both layers and, when the
        canton update did not throw, recomputes the axis ticks. */
    method Rerender(taxes: seq<RateRecord>) returns (ok: bool)
      requires Valid()
      modifies this`municipalities, this`municipalityListeners, this`cantons, this`cantonListeners, this`ticks
      ensures Valid()
      ensures MunicipalitiesUpdated(taxes, old(municipalities))
      ensures CantonsUpdated(taxes, ok, old(cantons), old(cantonListeners))
      ensures ticks == (if ok then TickValues(Rates(taxes)) else old(ticks))
    {
      UpdateMunicipalities(taxes);
      ok := UpdateCantons(taxes);
      if ok {
        UpdateAxis(taxes);
      }
    }

    /** Removes any previous drawing and creates the empty layers, the hidden
        tooltip and the empty axis. */
    method SetupSvg()
      modifies this`municipalities, this`cantons, this`cantonOrder, this`municipalityListeners,
               this`cantonListeners, this`tooltip, this`svgSize, this`gradient, this`ticks
      ensures Valid()
      ensures municipalities == map[] && cantons == map[] && cantonOrder == []
      ensures municipalityListeners.None? && cantonListeners.None?
      ensures tooltip.hidden && svgSize == (mapWidth, mapHeight)
      ensures gradient == [] && ticks.None?
    {
      municipalities, cantons, cantonOrder := map[], map[], [];
      municipalityListeners, cantonListeners := None, None;
      tooltip := Tooltip(true, 0, 0, NoLabel);
      svgSize := (mapWidth, mapHeight);
      gradient, ticks := [], None;
    }

    /** The boundary data arrived: the projection is created and one unstyled
        path is drawn per feature of each layer. The new paths carry no handlers. */
    method TopologyLoaded(municipalityIds: seq<int>, cantonIds: seq<int>)
      requires municipalities == map[] && cantons == map[]
      modifies this`municipalities, this`cantons, this`cantonOrder, this`municipalityListeners,
               this`cantonListeners, this`projected
      ensures Valid()
      ensures projected
      ensures municipalities.Keys == set id | id in municipalityIds
      ensures forall id :: id in municipalities ==> municipalities[id] == MunicipalityShape(Unstyled, false)
      ensures cantonOrder == cantonIds && cantons.Keys == set id | id in cantonIds
      ensures forall id :: id in cantons ==> cantons[id] == CantonShape(Unstyled, false, None)
      ensures municipalityListeners.None? && cantonListeners.None?
    {
      projected := true;
      municipalities := map id | id in municipalityIds :: MunicipalityShape(Unstyled, false);
      cantons := map id | id in cantonIds :: CantonShape(Unstyled, false, None);
      cantonOrder := cantonIds;
      municipalityListeners, cantonListeners := None, None;
    }

    /** Registers the municipality handlers, capturing the current records, and
        recolours the municipality layer. */
    method UpdateMunicipalities(taxes: seq<RateRecord>)
      requires Valid()
      modifies this`municipalities, this`municipalityListeners
      ensures Valid()
      ensures MunicipalitiesUpdated(taxes, old(municipalities))
    {
      municipalityListeners := Some(taxes);
      ColorizeMunicipalities(taxes);
    }

    /** Colours every drawn municipality that has a rate record by the bucket of
        its scaled rate within the population of all records; a record without a
        drawn path is skipped and a path without a record keeps its style. */
    method ColorizeMunicipalities(taxes: seq<RateRecord>)
      modifies this`municipalities
      ensures municipalities == RecolouredMunicipalities(old(municipalities), taxes, palette)
    {
      var lowest, highest := 0, 0;
      if |taxes| > 0 {
        lowest, highest := Extremes(Scaled(taxes));
      }
      PaintRecords(taxes, lowest, highest);
    }

    /** The colouring loop of the municipality layer, with the population
        extremes given: each record in turn restyles its path, when drawn. */
    method PaintRecords(taxes: seq<RateRecord>, lowest: int, highest: int)
      modifies this`municipalities
      ensures municipalities == PaintMunicipalities(old(municipalities), taxes, lowest, highest, palette)
    {
      var i := 0;
      PaintMunicipalitiesNothing(municipalities, lowest, highest, palette);
      while i < |taxes|
        invariant 0 <= i <= |taxes|
        invariant municipalities == PaintMunicipalities(old(municipalities), taxes[..i], lowest, highest, palette)
      {
        var record := taxes[i];
        PrefixStep(taxes, i);
        PaintMunicipalitiesStep(old(municipalities), taxes[..i], record, lowest, highest, palette);
        if record.municipalityId in municipalities {
          municipalities := municipalities[record.municipalityId :=
            municipalities[record.municipalityId].(style := Fill(ColourOf(palette, Scale(record.rate), lowest, highest)))];
        }
        i := i + 1;
      }
      assert taxes[..i] == taxes;
    }

    /** Sets every canton path's `averageRate`, in document order, stopping at
        the first canton without records (where the averaging throws); when all
        succeed, registers the canton handlers, capturing the records, and
        recolours the canton layer. */
    method UpdateCantons(taxes: seq<RateRecord>) returns (ok: bool)
      requires Valid()
      modifies this`cantons, this`cantonListeners
      ensures Valid()
      ensures CantonsUpdated(taxes, ok, old(cantons), old(cantonListeners))
    {
      AveragePassSetsAverages(cantons, cantonOrder, lookup, taxes);
      ok := AverageCantons(cantonOrder, taxes);
      if !ok {
        return;
      }
      cantonListeners := Some(taxes);
      ok := ColorizeCantons();
    }

    /** The `averageRate` pass over the canton paths in the given order: each
        path receives its canton's mean rate, until the first canton whose
        records are missing, where the averaging throws. */
    method AverageCantons(order: seq<int>, taxes: seq<RateRecord>) returns (ok: bool)
      requires forall i :: 0 <= i < |order| ==> order[i] in cantons
      modifies this`cantons
      ensures cantons == AveragePass(old(cantons), order, lookup, taxes)
      ensures ok == (FirstUnaveraged(order, lookup, taxes) == |order|)
    {
      var i := 0;
      AveragedNothing(cantons, lookup, taxes);
      while i < |order|
        invariant 0 <= i <= FirstUnaveraged(order, lookup, taxes)
        invariant cantons == Averaged(old(cantons), order[..i], lookup, taxes)
      {
        var id := order[i];
        PrefixStep(order, i);
        var average := CantonRate(lookup, taxes, id);
        if average.None? {
          assert FirstUnaveraged(order, lookup, taxes) == i;
          ok := false;
          return;
        }
        AveragedStep(old(cantons), order[..i], id, lookup, taxes);
        cantons := cantons[id := cantons[id].(averageRate := average)];
        i := i + 1;
      }
      assert order[..i] == order;
      ok := true;
    }

    /** Colours the canton paths of the lookup, in key order, by the bucket of
        their scaled average within the population of every drawn canton's
        scaled average; stops at the first lookup id that has no path (reading
        its attribute throws). Only styles change. */
    method ColorizeCantons() returns (ok: bool)
      requires Valid()
      modifies this`cantons
      ensures Valid()
      ensures cantons == RecolouredCantons(old(cantons), cantonOrder, TableIds(lookup), palette)
      ensures ok == (FirstMissing(TableIds(lookup), old(cantons)) == |lookup|)
    {
      var population := CantonPopulation(cantonOrder, cantons);
      var lowest, highest := 0, 0;
      if |population| > 0 {
        lowest, highest := Extremes(population);
      }
      var keys := TableIds(lookup);
      ok := PaintKeys(keys, lowest, highest);
      if |population| == 0 {
        PaintCantonsEmpty(keys[..FirstMissing(keys, old(cantons))], lowest, highest, palette);
      }
    }

    /** The colouring loop of the canton layer, with the population extremes
        given: the listed ids are restyled in turn up to the first one that has
        no path. */
    method PaintKeys(keys: seq<int>, lowest: int, highest: int) returns (ok: bool)
      requires Valid()
      modifies this`cantons
      ensures Valid()
      ensures cantons == PaintCantons(old(cantons), keys[..FirstMissing(keys, old(cantons))], lowest, highest, palette)
      ensures ok == (FirstMissing(keys, old(cantons)) == |keys|)
    {
      var i := 0;
      PaintCantonsNothing(cantons, lowest, highest, palette);
      while i < |keys|
        invariant 0 <= i <= |keys|
        invariant forall j :: 0 <= j < i ==> keys[j] in cantons
        invariant cantons == PaintCantons(old(cantons), keys[..i], lowest, highest, palette)
        invariant Valid()
      {
        var id := keys[i];
        if id !in cantons {
          ok := false;
          return;
        }
        PrefixStep(keys, i);
        PaintCantonsStep(old(cantons), keys[..i], id, lowest, highest, palette);
        cantons := cantons[id := cantons[id].(style := Fill(ColourOf(palette, CantonValue(cantons[id]), lowest, highest)))];
        i := i + 1;
      }
      assert keys[..i] == keys;
      ok := true;
    }

    /** Pointer enters a municipality: with handlers registered and a record for
        it, the path becomes active and the tooltip shows the first record's name
        and rate next to the pointer; otherwise nothing changes. */
    method HoverMunicipality(id: int, pageX: int, pageY: int)
      requires id in municipalities
      modifies this`municipalities, this`tooltip
      ensures municipalityListeners.None? || FirstRecordFor(municipalityListeners.value, id).None? ==>
                municipalities == old(municipalities) && tooltip == old(tooltip)
      ensures municipalityListeners.Some? && FirstRecordFor(municipalityListeners.value, id).Some? ==>
                var record := FirstRecordFor(municipalityListeners.value, id).value;
                && municipalities == old(municipalities)[id := old(municipalities)[id].(active := true)]
                && tooltip == Tooltip(false, pageX + TooltipOffsetX, pageY + TooltipOffsetY,
                                      MunicipalityLabel(record.municipalityName, record.rate))
    {
      if municipalityListeners.None? {
        return;
      }
      var found := FirstRecordFor(municipalityListeners.value, id);
      if found.None? {
        return;
      }
      municipalities := municipalities[id := municipalities[id].(active := true)];
      tooltip := Tooltip(false, pageX + TooltipOffsetX, pageY + TooltipOffsetY,
                         MunicipalityLabel(found.value.municipalityName, found.value.rate));
    }

    /** Pointer leaves a municipality: with handlers registered, the path is no
        longer active and the tooltip is hidden. */
    method MouseOutMunicipality(id: int)
      requires id in municipalities
      modifies this`municipalities, this`tooltip
      ensures municipalityListeners.None? ==> municipalities == old(municipalities) && tooltip == old(tooltip)
      ensures municipalityListeners.Some? ==>
                && municipalities == old(municipalities)[id := old(municipalities)[id].(active := false)]
                && tooltip == old(tooltip).(hidden := true)
    {
      if municipalityListeners.Some? {
        municipalities := municipalities[id := municipalities[id].(active := false)];
        tooltip := tooltip.(hidden := true);
      }
    }

    /** Pointer enters a canton: with handlers registered, the path becomes
        active and the tooltip shows the canton's name, taken from its first
        record, and its average rate. */
    method HoverCanton(id: int, pageX: int, pageY: int)
      requires Valid() && id in cantons
      modifies this`cantons, this`tooltip
      ensures Valid()
      ensures cantonListeners.None? ==> cantons == old(cantons) && tooltip == old(tooltip)
      ensures cantonListeners.Some? ==>
                && |Members(cantonListeners.value, Lookup(lookup, id).value)| > 0
                && cantons == old(cantons)[id := old(cantons)[id].(active := true)]
                && tooltip == Tooltip(false, pageX + TooltipOffsetX, pageY + TooltipOffsetY,
                                      CantonLabel(Members(cantonListeners.value, Lookup(lookup, id).value)[0].cantonName,
                                                  old(cantons)[id].averageRate.value))
    {
      if cantonListeners.None? {
        return;
      }
      var members := Members(cantonListeners.value, Lookup(lookup, id).value);
      var average := cantons[id].averageRate.value;
      cantons := cantons[id := cantons[id].(active := true)];
      tooltip := Tooltip(false, pageX + TooltipOffsetX, pageY + TooltipOffsetY,
                         CantonLabel(members[0].cantonName, average));
    }

    /** Pointer leaves a canton: with handlers registered, the path is no longer
        active and the tooltip is hidden. */
    method MouseOutCanton(id: int)
      requires Valid() && id in cantons
      modifies this`cantons, this`tooltip
      ensures Valid()
      ensures cantonListeners.None? ==> cantons == old(cantons) && tooltip == old(tooltip)
      ensures cantonListeners.Some? ==>
                && cantons == old(cantons)[id := old(cantons)[id].(active := false)]
                && tooltip == old(tooltip).(hidden := true)
    {
      if cantonListeners.Some? {
        cantons := cantons[id := cantons[id].(active := false)];
        tooltip := tooltip.(hidden := true);
      }
    }

    /** Click on a canton: with handlers registered, every canton is recoloured
        and then the clicked one is set to the neutral style, which makes it the
        only neutral canton (see ClickLeavesOneNeutral). */
    method ClickCanton(id: int) returns (ok: bool)
      requires Valid() && id in cantons
      modifies this`cantons
      ensures Valid()
      ensures cantonListeners.None? ==> ok && cantons == old(cantons)
      ensures cantonListeners.Some? ==>
                var painted := RecolouredCantons(old(cantons), cantonOrder, TableIds(lookup), palette);
                && ok == (FirstMissing(TableIds(lookup), old(cantons)) == |lookup|)
                && cantons == (if ok then painted[id := painted[id].(style := Neutral)] else painted)
    {
      if cantonListeners.None? {
        ok := true;
        return;
      }
      ok := ColorizeCantons();
      if ok {
        Neutralise(id);
      }
    }

    /** `attr("style", "fill: none; stroke-width: 1.5;")` on the clicked canton. */
    method Neutralise(id: int)
      requires Valid() && id in cantons
      modifies this`cantons
      ensures Valid()
      ensures cantons == old(cantons)[id := old(cantons)[id].(style := Neutral)]
    {
      cantons := cantons[id := cantons[id].(style := Neutral)];
    }

    /** Click on the background: every canton is recoloured, which undoes a
        previous canton click (see RecolourIdempotent). */
    method ClickBackground() returns (ok: bool)
      requires Valid() && firstRender
      modifies this`cantons
      ensures Valid()
      ensures cantons == RecolouredCantons(old(cantons), cantonOrder, TableIds(lookup), palette)
      ensures ok == (FirstMissing(TableIds(lookup), old(cantons)) == |lookup|)
    {
      ok := ColorizeCantons();
    }

    /** Window resize with the container's new size: the viewport fields and the
        legend margin are updated; the svg size and the axis position follow
        only once the projection exists (before that, rescaling the undefined
        projection throws). */
    method Resize(width: nat, height: int) returns (ok: bool)
      requires firstRender
      modifies this`mapWidth, this`mapHeight, this`axisMarginLeft, this`svgSize, this`axisOffset
      ensures mapWidth == width && mapHeight == height
      ensures axisMarginLeft == LegendMarginLeft(width, height)
      ensures axisMarginLeft < 0.0 <==> height <= LegendMinHeight
      ensures ok == projected
      ensures ok ==> svgSize == (width, height) && axisOffset == (axisMarginLeft, height - AxisMarginBottom)
      ensures !ok ==> svgSize == old(svgSize) && axisOffset == old(axisOffset)
    {
      mapWidth, mapHeight := width, height;
      axisMarginLeft := LegendMarginLeft(width, height);
      if !projected {
        ok := false;
        return;
      }
      svgSize := (width, height);
      axisOffset := (axisMarginLeft, height - AxisMarginBottom);
      ok := true;
    }

    /** The rate fetch settled: the axis is drawn only when it succeeded. */
    method FetchSettled(result: bool)
      requires firstRender
      modifies this`axisOffset, this`gradient
      ensures result ==> axisOffset == (axisMarginLeft, mapHeight - AxisMarginBottom) && gradient == GradientStops(palette)
      ensures !result ==> axisOffset == old(axisOffset) && gradient == old(gradient)
    {
      if result {
        DrawAxis();
      }
    }

    /** Positions the axis group and builds the gradient strip from the palette. */
    method DrawAxis()
      modifies this`axisOffset, this`gradient
      ensures axisOffset == (axisMarginLeft, mapHeight - AxisMarginBottom)
      ensures gradient == GradientStops(palette)
    {
      axisOffset := (axisMarginLeft, mapHeight - AxisMarginBottom);
      gradient := GradientStops(palette);
    }

    /** Recomputes the seven tick values from the records' rates. */
    method UpdateAxis(taxes: seq<RateRecord>)
      requires Valid()
      modifies this`ticks
      ensures Valid()
      ensures ticks == TickValues(Rates(taxes))
    {
      ticks := TickValues(Rates(taxes));
    }
  }
}
