/**
 * The decisions the Telegram and Discord progress bars make around the
 * base meter's `display`, `clear`, `close` and constructor. Both bars use
 * the same rules; each bar class applies them to its own sink.
 */
module Hooks {
  import opened Outcomes
  import opened Text

  const BarPlaceholder := "<bar/>"
  const BarField := "{bar}"
  /** A bar of fixed width 10, drawn in Unicode blocks. */
  const FixedWidthBar := "{bar:10u}"
  const DefaultBarFormat := "{l_bar}{bar:10u}{r_bar}"

  /**
   * The `bar_format` that `display` puts into the format dictionary: a
   * non-empty format has `<bar/>` and then `{bar}` replaced by the
   * fixed-width bar; a missing or empty one becomes the default.
   */
  function RewriteBarFormat(barFormat: Option<string>): (r: string)
    ensures barFormat.None? || barFormat == Some([]) ==> r == DefaultBarFormat
  {
    if barFormat.Some? && barFormat.value != [] then
      ReplaceAll(ReplaceAll(barFormat.value, BarPlaceholder, FixedWidthBar), BarField, FixedWidthBar)
    else
      DefaultBarFormat
  }

  /** The default format holds neither `<bar/>` nor `{bar}`. */
  lemma DefaultHasNoPlaceholder(p: string)
    requires p == BarPlaceholder || p == BarField
    ensures !Contains(DefaultBarFormat, p)
  {
    var tail := "{r_bar}";
    assert tail[..|BarField|][1] != BarField[1];
    assert FixedWidthBar[..|BarField|][4] != BarField[4];
    assert !Contains([], p);
    assert tail + [] == tail;
    NoOccurrenceAfterRep(tail, [], p);
    NoOccurrenceAfterRep(FixedWidthBar, tail, p);
    NoOccurrenceAfterRep("{l_bar}", FixedWidthBar + tail, p);
    assert DefaultBarFormat == "{l_bar}" + (FixedWidthBar + tail);
  }

  /** After the rewrite no `<bar/>` and no `{bar}` is left, whatever the format. */
  lemma RewriteRemovesPlaceholders(barFormat: Option<string>)
    ensures !Contains(RewriteBarFormat(barFormat), BarPlaceholder)
    ensures !Contains(RewriteBarFormat(barFormat), BarField)
  {
    if barFormat.Some? && barFormat.value != [] {
      var f := barFormat.value;
      var once := ReplaceAll(f, BarPlaceholder, FixedWidthBar);
      ReplaceEliminates(f, BarPlaceholder, FixedWidthBar);
      ReplacePreservesAbsence(once, BarField, FixedWidthBar, BarPlaceholder);
      assert FixedWidthBar[..|BarField|][4] != BarField[4];
      ReplaceEliminates(once, BarField, FixedWidthBar);
    } else {
      DefaultHasNoPlaceholder(BarPlaceholder);
      DefaultHasNoPlaceholder(BarField);
    }
  }

  /**
   * `<bar/>` is replaced by the fixed-width bar, and the text around it is
   * kept, whatever other fields that text holds.
   */
  lemma RewritesBarTag(a: string, b: string)
    requires !Contains(a, BarPlaceholder) && !Contains(b, BarPlaceholder)
    requires !Contains(a, BarField) && !Contains(b, BarField)
    ensures RewriteBarFormat(Some(a + BarPlaceholder + b)) == a + FixedWidthBar + b
  {
    assert BarPlaceholder[0] !in BarPlaceholder[1..];
    ReplaceAtFirst(a, BarPlaceholder, FixedWidthBar, b);
    ReplaceAbsent(b, BarPlaceholder, FixedWidthBar);
    FixedWidthBarKept(a, b);
  }

  /** The second replacement leaves the fixed-width bar the first one produced alone. */
  lemma FixedWidthBarKept(a: string, b: string)
    requires !Contains(a, BarField) && !Contains(b, BarField)
    ensures ReplaceAll(a + FixedWidthBar + b, BarField, FixedWidthBar) == a + FixedWidthBar + b
  {
    assert FixedWidthBar[..|BarField|][4] != BarField[4];
    assert BarField[0] !in FixedWidthBar[1..];
    NoOccurrenceAfterRep(FixedWidthBar, b, BarField);
    assert (FixedWidthBar + b)[0] == '{' && '{' !in BarField[1..];
    NoStraddle(a, FixedWidthBar + b, BarField);
    assert a + (FixedWidthBar + b) == a + FixedWidthBar + b;
    ReplaceAbsent(a + FixedWidthBar + b, BarField, FixedWidthBar);
  }

  /**
   * `{bar}` is replaced by the fixed-width bar, and the text around it is
   * kept, whatever other fields that text holds.
   */
  lemma RewritesBarField(a: string, b: string)
    requires !Contains(a, BarPlaceholder) && !Contains(b, BarPlaceholder)
    requires !Contains(a, BarField) && !Contains(b, BarField)
    ensures RewriteBarFormat(Some(a + BarField + b)) == a + FixedWidthBar + b
  {
    assert BarPlaceholder[0] !in BarField[1..];
    NoOccurrenceAfterRep(BarField, b, BarPlaceholder);
    assert (BarField + b)[0] == '{' && '{' !in BarPlaceholder[1..];
    NoStraddle(a, BarField + b, BarPlaceholder);
    assert a + (BarField + b) == a + BarField + b;
    ReplaceAbsent(a + BarField + b, BarPlaceholder, FixedWidthBar);
    assert BarField[0] !in BarField[1..];
    ReplaceAtFirst(a, BarField, FixedWidthBar, b);
    ReplaceAbsent(b, BarField, FixedWidthBar);
  }

  /** The stock format `{l_bar}{bar}{r_bar}` is rewritten to the default one, its other fields kept. */
  lemma RewritesStockFormat()
    ensures RewriteBarFormat(Some("{l_bar}" + BarField + "{r_bar}")) == DefaultBarFormat
  {
    SidesHoldNoPlaceholder("{l_bar}");
    SidesHoldNoPlaceholder("{r_bar}");
    RewritesBarField("{l_bar}", "{r_bar}");
    assert DefaultBarFormat == "{l_bar}" + FixedWidthBar + "{r_bar}";
  }

  lemma SidesHoldNoPlaceholder(f: string)
    requires f == "{l_bar}" || f == "{r_bar}"
    ensures !Contains(f, BarField) && !Contains(f, BarPlaceholder)
  {
    assert !Contains([], BarField) && !Contains([], BarPlaceholder);
    assert f + [] == f;
    assert f[..|BarField|][1] != BarField[1];
    NoOccurrenceAfterRep(f, [], BarField);
    NoOccurrenceAfterRep(f, [], BarPlaceholder);
  }

  /** A format that holds neither placeholder is used as it is. */
  lemma RewriteKeepsPlainFormat(f: string)
    requires f != [] && !Contains(f, BarPlaceholder) && !Contains(f, BarField)
    ensures RewriteBarFormat(Some(f)) == f
  {
    ReplaceAbsent(f, BarPlaceholder, FixedWidthBar);
    ReplaceAbsent(f, BarField, FixedWidthBar);
  }

  /** The bar stays on screen: `leave` is true, or unset on the outermost bar. */
  predicate LeftOnScreen(leave: Option<bool>, pos: int) {
    leave == Some(true) || (leave.None? && pos == 0)
  }

  /** `close` deletes the remote message exactly when the bar is enabled and not left on screen. */
  function CloseDeletes(disable: bool, leave: Option<bool>, pos: int): (r: bool)
    ensures r <==> !disable && !LeftOnScreen(leave, pos)
  {
    match leave
    case Some(b) => !disable && !b
    case None => !disable && pos != 0
  }

  /** `os.getenv(name)`. */
  function Getenv(env: map<string, string>, name: string): (r: Option<string>)
    ensures r.Some? <==> name in env
    ensures r.Some? ==> r.value == env[name]
  {
    if name in env then Some(env[name]) else None
  }

  /**
   * `kwargs.pop(key, default)`, and the value `kwargs.setdefault(key, default)`
   * leaves: an explicit keyword, even one set to None, wins over the default.
   */
  function KeywordOr<V>(explicit: Option<V>, default: V): (r: V)
    ensures explicit.Some? ==> r == explicit.value
    ensures explicit.None? ==> r == default
  {
    if explicit.Some? then explicit.value else default
  }
}
