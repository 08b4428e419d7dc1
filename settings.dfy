/**
 * The loosely typed values that recordmic's settings and channel selectors take,
 * the two JavaScript tests the recorder applies to them (truthiness and `== 'left'`),
 * and the defaults its constructor fills in (index.js:39-42).
 */
module Settings {

  import opened Wrappers

  /** A JavaScript value as far as the recorder inspects it. `Undefined` also stands for `null`. */
  datatype JsValue = Undefined | Bool(b: bool) | Num(n: int) | Str(s: string)

  /** JavaScript truthiness: what `if (v)`, `!v` and `v || d` test. */
  predicate Truthy(v: JsValue)
    // the falsy values of this domain are exactly these four
    ensures Truthy(v) <==> !(v == Undefined || v == Bool(false) || v == Num(0) || v == Str(""))
  {
    match v
    case Undefined => false
    case Bool(b) => b
    case Num(n) => n != 0
    case Str(s) => s != ""
  }

  /**
   * Loose equality `v == word` against the two words the recorder compares with.
   * Neither word is a numeric string, so a number or a boolean (converted to a number)
   * never equals it, and `undefined`/`null` equal no string.
   */
  predicate Is(v: JsValue, word: string)
    requires word == "left" || word == "right"
    ensures Is(v, word) <==> v == Str(word)
    ensures Is(v, word) ==> Truthy(v)
  {
    match v
    case Str(s) => s == word
    case _ => false
  }

  /** The settings object as the caller passes it; a missing property is `None`. */
  datatype Options = Options(volume: Option<real>, bufferSize: Option<int>, mono: JsValue)

  /** The settings object after the constructor has filled in its defaults. */
  datatype Config = Config(volume: real, bufferSize: int, mono: JsValue)

  const DefaultVolume: real := 1.0
  const DefaultBufferSize: int := 2048

  /** `s.volume || 1`, `s.bufferSize || 2048` and `s.mono || false`. */
  function WithDefaults(o: Options): (c: Config)
    ensures c.volume != 0.0 && c.bufferSize != 0
    ensures o.volume.Some? && o.volume.value != 0.0 ==> c.volume == o.volume.value
    ensures !(o.volume.Some? && o.volume.value != 0.0) ==> c.volume == DefaultVolume
    ensures o.bufferSize.Some? && o.bufferSize.value != 0 ==> c.bufferSize == o.bufferSize.value
    ensures !(o.bufferSize.Some? && o.bufferSize.value != 0) ==> c.bufferSize == DefaultBufferSize
    ensures Truthy(o.mono) ==> c.mono == o.mono
    ensures !Truthy(o.mono) ==> c.mono == Bool(false)
    // the default picks the same channel layout as the value it replaces
    ensures Truthy(c.mono) == Truthy(o.mono)
    ensures Is(c.mono, "left") == Is(o.mono, "left") && Is(c.mono, "right") == Is(o.mono, "right")
  {
    Config(
      if o.volume.Some? && o.volume.value != 0.0 then o.volume.value else DefaultVolume,
      if o.bufferSize.Some? && o.bufferSize.value != 0 then o.bufferSize.value else DefaultBufferSize,
      if Truthy(o.mono) then o.mono else Bool(false))
  }

  /** Passing a filled-in settings object back to the constructor changes nothing. */
  lemma DefaultsIdempotent(o: Options)
    ensures var c := WithDefaults(o);
            WithDefaults(Options(Some(c.volume), Some(c.bufferSize), c.mono)) == c
  {
  }
}
