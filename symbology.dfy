/** The state of the Symbology widget that the styling engine reads and
    writes: the current selection and settings, the style last applied, and
    the per-layer style cache. */
module Symbology {
  import opened Wrappers
  import opened Palette
  import opened Classify

  datatype GeometryType = Point | LineString | Polygon | Mixed

  /** Point radius, line width and fill opacity. */
  datatype StyleOptions = StyleOptions(pointSize: real, lineWidth: real, opacity: real)

  /** `{ pointSize: 8, lineWidth: 2, opacity: 0.5 }`. */
  const DefaultStyleOptions := StyleOptions(8.0, 2.0, 0.5)

  /** What the cache keeps per layer title: the parameters and results of the
      last style applied to that layer. */
  datatype StyleEntry = StyleEntry(
    field: string,
    classCount: int,
    classMethod: ClassMethod,
    colorScheme: string,
    breaks: seq<real>,
    colors: seq<string>,
    schemeIndex: nat,
    styleOptions: StyleOptions,
    geometryType: Option<GeometryType>)

  /** The style shown in the legend. `range` holds the sample's minimum and
      maximum when the style was just applied, and is absent when it was
      restored from the cache. */
  datatype CurrentStyle = CurrentStyle(field: string, breaks: seq<real>, colors: seq<string>, range: Option<(real, real)>)

  /** A cached entry keeps a class count of at least two, its sorted
      `classCount + 1` breaks and one colour per class. */
  predicate EntryOk(e: StyleEntry)
  {
    e.classCount >= 2 && |e.breaks| == e.classCount + 1 && Sorted(e.breaks) &&
    |e.colors| == e.classCount
  }

  /** The entry's colours are the ones its scheme family, scheme index and
      class count name. */
  predicate EntryConsistent(e: StyleEntry)
  {
    e.classCount >= 2 && e.colors == SchemeColors(e.colorScheme, e.schemeIndex, e.classCount)
  }

  /** The `styleCache` map from layer title to the last style applied to it. */
  class StyleCache {
    var entries: map<string, StyleEntry>

    /** Every cached entry keeps a valid class count, its breaks and one
        colour per class. */
    ghost predicate Valid()
      reads this
    {
      forall t :: t in entries ==> EntryOk(entries[t])
    }

    constructor ()
      ensures entries == map[]
    {
      entries := map[];
    }

    /** `new Map(prev).set(title, entry)`: replaces the entry for `title`
        and keeps every other entry. */
    method Put(title: string, entry: StyleEntry)
      modifies this
      ensures entries == old(entries)[title := entry]
    {
      entries := entries[title := entry];
    }

    /** `styleCache.get(title)`. */
    method Get(title: string) returns (entry: Option<StyleEntry>)
      ensures entry.Some? <==> title in entries
      ensures entry.Some? ==> entry.value == entries[title]
    {
      if title in entries {
        entry := Some(entries[title]);
      } else {
        entry := None;
      }
    }
  }

  class SymbologyWidget {
    var selectedLayer: Option<string>   // the selected layer, by title
    var selectedField: Option<string>
    var classCount: int
    var classMethod: ClassMethod
    var colorScheme: string
    var schemeIndex: nat
    var geometryType: Option<GeometryType>
    var styleOptions: StyleOptions
    var currentStyle: Option<CurrentStyle>
    const cache: StyleCache

    /** The class count stays within the selector's range (at least two), and
        so does every cached entry's, with its breaks and one colour per
        class; the style shown has one colour fewer than breaks. */
    ghost predicate Valid()
      reads this, cache
    {
      classCount >= 2 && cache.Valid() &&
      (currentStyle.Some? ==> |currentStyle.value.colors| + 1 == |currentStyle.value.breaks|)
    }

    /** `selectedLayer && selectedField`: a layer and a non-empty field name. */
    predicate Ready()
      reads this
    {
      selectedLayer.Some? && selectedField.Some? && selectedField.value != ""
    }

    /** The widget's initial state. */
    constructor ()
      ensures Valid() && fresh(cache) && cache.entries == map[]
      ensures selectedLayer == None && selectedField == None && currentStyle == None
      ensures classCount == 5 && classMethod == EqualInterval && colorScheme == "sequential"
      ensures schemeIndex == 0 && geometryType == None && styleOptions == DefaultStyleOptions
    {
      selectedLayer, selectedField := None, None;
      classCount, classMethod := 5, EqualInterval;
      colorScheme, schemeIndex := "sequential", 0;
      geometryType, styleOptions, currentStyle := None, DefaultStyleOptions, None;
      cache := new StyleCache();
    }

    /** `getColors(schemeIndex)`, here with parameter `index`: interpolates the chosen palette to the class
        count, or the first sequential palette when the family is unknown or
        the index is past its end; it never hands over an invalid scheme. */
    method GetColors(index: nat) returns (r: Result<seq<string>, ColorError>)
      ensures r == Interpolation(SelectedScheme(colorScheme, index), classCount)
      ensures classCount >= 2 ==> r == Success(SchemeColors(colorScheme, index, classCount))
    {
      var schemes := SchemeFamily(colorScheme);
      if schemes.None? || index >= |schemes.value| {
        r := InterpolateColors(Reds, classCount);
      } else {
        FamiliesWellFormed(colorScheme);
        r := InterpolateColors(schemes.value[index], classCount);
      }
    }

    /** The entry `handleApplyStyle` records for the current selection and
        settings: the breaks of the current method over the field's
        non-missing values, and the given colours or those of the current
        scheme. */
    ghost function Classified(fieldValues: seq<Option<real>>, predefinedColors: Option<seq<string>>): (entry: StyleEntry)
      reads this
      requires Ready() && |Sample(fieldValues)| > 0 && classCount >= 2
    {
      StyleEntry(selectedField.value, classCount, classMethod, colorScheme,
        Breaks(classMethod, Sample(fieldValues), classCount),
        if predefinedColors.Some? then predefinedColors.value else SchemeColors(colorScheme, schemeIndex, classCount),
        schemeIndex, styleOptions, geometryType)
    }

    /** `handleApplyStyle(predefinedColors)`. Without a layer and a field it
        changes nothing. Otherwise it shows the classified entry as the current
        style, with the sample's range, and records it in the cache under the
        layer's title, leaving the other titles' entries as they were. */
    method ApplyStyle(fieldValues: seq<Option<real>>, predefinedColors: Option<seq<string>>) returns (applied: bool)
      requires Valid()
      requires predefinedColors.Some? ==> |predefinedColors.value| == classCount
      requires Ready() ==> |Sample(fieldValues)| > 0
      modifies this`currentStyle, cache
      ensures Valid()
      ensures applied == Ready()
      ensures !applied ==> currentStyle == old(currentStyle) && cache.entries == old(cache.entries)
      ensures applied ==>
        var e := Classified(fieldValues, predefinedColors);
        var values := Sample(fieldValues);
        currentStyle == Some(CurrentStyle(e.field, e.breaks, e.colors, Some((Minimum(values), Maximum(values))))) &&
        cache.entries == old(cache.entries)[selectedLayer.value := e]
    {
      if !Ready() {
        return false;
      }
      var entry, min, max := ClassifyField(fieldValues, predefinedColors);
      Show(entry, (min, max));
      applied := true;
    }

    /** The part of `handleApplyStyle` that computes the style: the sample's
        range, the breaks and the colours. */
    method ClassifyField(fieldValues: seq<Option<real>>, predefinedColors: Option<seq<string>>)
      returns (entry: StyleEntry, min: real, max: real)
      requires Ready() && |Sample(fieldValues)| > 0 && classCount >= 2
      requires predefinedColors.Some? ==> |predefinedColors.value| == classCount
      ensures entry == Classified(fieldValues, predefinedColors) && EntryOk(entry)
      ensures min == Minimum(Sample(fieldValues)) && max == Maximum(Sample(fieldValues))
    {
      var values := Sample(fieldValues);
      min, max := Minimum(values), Maximum(values);
      var breaks := ComputeBreaks(classMethod, values, classCount);
      var colors;
      if predefinedColors.Some? {
        colors := predefinedColors.value;
      } else {
        var schemeColors := GetColors(schemeIndex);
        colors := schemeColors.value;
      }
      entry := StyleEntry(selectedField.value, classCount, classMethod, colorScheme, breaks, colors,
        schemeIndex, styleOptions, geometryType);
    }

    /** Shows `entry` as the current style and caches it under the selected
        layer's title. */
    method Show(entry: StyleEntry, range: (real, real))
      requires Valid() && selectedLayer.Some? && EntryOk(entry)
      modifies this`currentStyle, cache
      ensures Valid()
      ensures currentStyle == Some(CurrentStyle(entry.field, entry.breaks, entry.colors, Some(range)))
      ensures cache.entries == old(cache.entries)[selectedLayer.value := entry]
    {
      currentStyle := Some(CurrentStyle(entry.field, entry.breaks, entry.colors, Some(range)));
      cache.Put(selectedLayer.value, entry);
    }

    /** The layer selector's `onChange(title)`: selects the layer, records its
        detected geometry type, and either restores the settings and style
        cached for that title or clears the field and style and resets the
        scheme index and the style options to their defaults. */
    method SelectLayer(title: string, detected: Option<GeometryType>)
      requires Valid()
      modifies this
      ensures Valid()
      ensures selectedLayer == Some(title) && geometryType == detected
      ensures title in cache.entries ==>
        var e := cache.entries[title];
        selectedField == Some(e.field) && classCount == e.classCount &&
        classMethod == e.classMethod && colorScheme == e.colorScheme &&
        schemeIndex == e.schemeIndex && styleOptions == e.styleOptions &&
        currentStyle == Some(CurrentStyle(e.field, e.breaks, e.colors, None))
      ensures title !in cache.entries ==>
        selectedField == None && currentStyle == None && schemeIndex == 0 &&
        styleOptions == DefaultStyleOptions && classCount == old(classCount) &&
        classMethod == old(classMethod) && colorScheme == old(colorScheme)
    {
      selectedLayer := Some(title);
      geometryType := detected;
      var cachedStyle := cache.Get(title);
      if cachedStyle.Some? {
        var e := cachedStyle.value;
        selectedField := Some(e.field);
        classCount := e.classCount;
        classMethod := e.classMethod;
        colorScheme := e.colorScheme;
        schemeIndex := e.schemeIndex;
        styleOptions := e.styleOptions;
        currentStyle := Some(CurrentStyle(e.field, e.breaks, e.colors, None));
      } else {
        selectedField := None;
        currentStyle := None;
        schemeIndex := 0;
        styleOptions := DefaultStyleOptions;
      }
    }

    /** The field selector's `onChange(value)`: selects the field and resets
        the scheme index. */
    method SelectField(field: string)
      modifies this`selectedField, this`schemeIndex
      ensures selectedField == Some(field) && schemeIndex == 0
    {
      selectedField := Some(field);
      schemeIndex := 0;
    }

    /** The class-count input, bounded to 2..10. */
    method SetClassCount(n: int)
      requires Valid() && 2 <= n <= 10
      modifies this`classCount
      ensures Valid() && classCount == n
    {
      classCount := n;
    }

    /** The classification-method selector. */
    method SetClassMethod(m: ClassMethod)
      modifies this`classMethod
      ensures classMethod == m
    {
      classMethod := m;
    }

    /** The scheme-family radio group: selects the family and resets the
        scheme index. */
    method SetColorScheme(family: string)
      modifies this`colorScheme, this`schemeIndex
      ensures colorScheme == family && schemeIndex == 0
    {
      colorScheme := family;
      schemeIndex := 0;
    }

    /** A click on palette swatch `i`, as the widget runs it: the new index is
        only scheduled, so the style is applied, and cached, with the index
        that was selected before the click, next to the colours of palette
        `i`; the current style shows palette `i`'s colours. */
    method ClickSchemeAsWritten(i: nat, fieldValues: seq<Option<real>>) returns (applied: bool)
      requires Valid()
      requires SchemeFamily(colorScheme).Some? && i < |SchemeFamily(colorScheme).value|
      requires Ready() ==> |Sample(fieldValues)| > 0
      modifies this`currentStyle, this`schemeIndex, cache
      ensures Valid()
      ensures applied == Ready()
      ensures !applied ==> unchanged(this) && cache.entries == old(cache.entries)
      ensures applied ==>
        var values := Sample(fieldValues);
        schemeIndex == i &&
        currentStyle == Some(CurrentStyle(selectedField.value, Breaks(classMethod, values, classCount),
          SchemeColors(colorScheme, i, classCount), Some((Minimum(values), Maximum(values))))) &&
        cache.entries == old(cache.entries)[selectedLayer.value := StyleEntry(
          selectedField.value, classCount, classMethod, colorScheme,
          Breaks(classMethod, values, classCount),
          SchemeColors(colorScheme, i, classCount), old(schemeIndex), styleOptions, geometryType)]
    {
      if Ready() {
        FamiliesWellFormed(colorScheme);
        var colors := InterpolateColors(SchemeFamily(colorScheme).value[i], classCount);
        applied := ApplyStyle(fieldValues, Some(colors.value));
        schemeIndex := i;
      } else {
        applied := false;
      }
    }

    /** A click on palette swatch `i` with the selected index updated before
        the style is applied: the current style shows palette `i`'s colours
        and the cached entry names the palette whose colours it holds. */
    method ClickScheme(i: nat, fieldValues: seq<Option<real>>) returns (applied: bool)
      requires Valid()
      requires SchemeFamily(colorScheme).Some? && i < |SchemeFamily(colorScheme).value|
      requires Ready() ==> |Sample(fieldValues)| > 0
      modifies this`currentStyle, this`schemeIndex, cache
      ensures Valid()
      ensures applied == Ready()
      ensures !applied ==> unchanged(this) && cache.entries == old(cache.entries)
      ensures applied ==>
        var values := Sample(fieldValues);
        schemeIndex == i &&
        currentStyle == Some(CurrentStyle(selectedField.value, Breaks(classMethod, values, classCount),
          SchemeColors(colorScheme, i, classCount), Some((Minimum(values), Maximum(values))))) &&
        cache.entries == old(cache.entries)[selectedLayer.value := StyleEntry(
          selectedField.value, classCount, classMethod, colorScheme,
          Breaks(classMethod, values, classCount),
          SchemeColors(colorScheme, i, classCount), i, styleOptions, geometryType)] &&
        EntryConsistent(cache.entries[selectedLayer.value])
    {
      if Ready() {
        FamiliesWellFormed(colorScheme);
        var colors := InterpolateColors(SchemeFamily(colorScheme).value[i], classCount);
        schemeIndex := i;
        applied := ApplyStyle(fieldValues, Some(colors.value));
      } else {
        applied := false;
      }
    }
  }

  /** An entry cached by the widget's swatch click after another palette of
      the same family was selected names one palette and holds another's
      colours. */
  lemma StaleIndexInconsistent(e: StyleEntry, clicked: nat)
    requires SchemeFamily(e.colorScheme).Some? && e.classCount >= 2
    requires e.schemeIndex < |SchemeFamily(e.colorScheme).value| && clicked < |SchemeFamily(e.colorScheme).value|
    requires clicked != e.schemeIndex
    requires e.colors == SchemeColors(e.colorScheme, clicked, e.classCount)
    ensures !EntryConsistent(e)
  {
    if clicked < e.schemeIndex {
      DistinctPalettesDiffer(e.colorScheme, clicked, e.schemeIndex, e.classCount);
    } else {
      DistinctPalettesDiffer(e.colorScheme, e.schemeIndex, clicked, e.classCount);
    }
  }

  /** Select a layer `title` and a field with some numeric values, then
      click the second sequential palette:
      the cached entry says palette 0 but holds palette 1's colours. */
  method StaleSchemeIndexScenario(title: string, field: string, fieldValues: seq<Option<real>>) returns (entry: StyleEntry)
    requires |field| > 0 && |Sample(fieldValues)| > 0
    ensures entry.schemeIndex == 0 && entry.colorScheme == "sequential" && entry.classCount == 5
    ensures entry.colors == SchemeColors(entry.colorScheme, 1, entry.classCount)
    ensures !EntryConsistent(entry)
  {
    var w := new SymbologyWidget();
    w.SelectLayer(title, Some(Polygon));
    w.SelectField(field);
    var applied := w.ClickSchemeAsWritten(1, fieldValues);
    entry := w.cache.entries[title];
    StaleIndexInconsistent(entry, 1);
  }

  /** The same clicks with the index updated first cache a consistent entry. */
  method SchemeIndexScenario(title: string, field: string, fieldValues: seq<Option<real>>) returns (entry: StyleEntry)
    requires |field| > 0 && |Sample(fieldValues)| > 0
    ensures entry.schemeIndex == 1 && entry.colorScheme == "sequential" && entry.classCount == 5
    ensures entry.colors == SchemeColors(entry.colorScheme, 1, entry.classCount)
    ensures EntryConsistent(entry)
  {
    var w := new SymbologyWidget();
    w.SelectLayer(title, Some(Polygon));
    w.SelectField(field);
    var applied := w.ClickScheme(1, fieldValues);
    entry := w.cache.entries[title];
  }

  /** Applying a style and later re-selecting the same layer restores exactly
      the applied settings, and the applied breaks and colours as the current
      style. */
  method ApplyThenReselect(w: SymbologyWidget, fieldValues: seq<Option<real>>, other: string, detected: Option<GeometryType>)
    requires w.Valid() && w.Ready() && |Sample(fieldValues)| > 0
    modifies w, w.cache
    ensures w.Valid()
    ensures w.selectedLayer == old(w.selectedLayer) && w.selectedField == old(w.selectedField)
    ensures w.classCount == old(w.classCount) && w.classMethod == old(w.classMethod)
    ensures w.colorScheme == old(w.colorScheme) && w.schemeIndex == old(w.schemeIndex)
    ensures w.styleOptions == old(w.styleOptions)
    ensures w.currentStyle == Some(CurrentStyle(old(w.selectedField.value),
      Breaks(old(w.classMethod), Sample(fieldValues), old(w.classCount)),
      SchemeColors(old(w.colorScheme), old(w.schemeIndex), old(w.classCount)), None))
  {
    var title := w.selectedLayer.value;
    var applied := w.ApplyStyle(fieldValues, None);
    w.SelectLayer(other, detected);
    w.SelectLayer(title, detected);
  }
}
