/**
  The reference "tag" driver: its extra default parameters and the normalisation
  its `render` applies to `singleton` and `content` before the base render.
*/
module TagDriver {
  import opened Support

  /** The tags rendered self-closing when `singleton` is left null (kept as the driver lists them). */
  const KnownSingletonTags: seq<string> :=
    ["area", "base", "br", "col", "embed", "hr", "img", "input", "link", "meta", "param", "source"]

  /** The parameters the tag driver adds to the base defaults. */
  function Extras(): (r: Params)
    ensures r.Keys == {"tag", "content", "singleton"}
    ensures r["tag"] == Str("div") && r["content"] == Str("") && r["singleton"] == Null
  {
    map["tag" := Str("div"), "content" := Str(""), "singleton" := Null]
  }

  /** `in_array($tag, $knownSingletonTags, true)`: strict, so only a string can match. */
  predicate IsSingletonTag(tag: Value) {
    tag.Str? && tag.s in KnownSingletonTags
  }

  /** A null (or absent) `singleton` becomes whether `tag` is a known singleton tag. */
  function ResolveSingleton(p: Params): (r: Params)
    ensures "singleton" in r && r["singleton"] != Null
    ensures Get(p, "singleton") == Null ==> r["singleton"] == Bool(IsSingletonTag(Get(p, "tag")))
    ensures Get(p, "singleton") != Null ==> r == p
    ensures forall k | k != "singleton" :: (k in r <==> k in p) && (k in r ==> r[k] == p[k])
  {
    if Get(p, "singleton") == Null then p["singleton" := Bool(IsSingletonTag(Get(p, "tag")))] else p
  }

  /**
    What `render` does to the parameters before delegating: resolve `singleton`, then
    replace a closure `content` by what it produces for the driver (which already
    sees the resolved `singleton`); any other `content` is written back as it was.
  */
  function NormaliseForRender(d: DriverView, produce: Producer): (r: Params)
    ensures "singleton" in r && r["singleton"] != Null
    ensures Get(d.params, "singleton") == Null ==> r["singleton"] == Bool(IsSingletonTag(Get(d.params, "tag")))
    ensures Get(d.params, "singleton") != Null ==> r["singleton"] == d.params["singleton"]
    ensures "content" in r && !r["content"].Closure?
    ensures Get(d.params, "content").Closure? ==>
      r["content"] == Str(produce(Get(d.params, "content").fn, d.(params := ResolveSingleton(d.params))))
    ensures !Get(d.params, "content").Closure? ==> r["content"] == Get(d.params, "content")
    ensures forall k | k != "singleton" && k != "content" :: (k in r <==> k in d.params) && (k in r ==> r[k] == d.params[k])
  {
    var p := ResolveSingleton(d.params);
    var content := Get(p, "content");
    p["content" := if content.Closure? then Str(produce(content.fn, d.(params := p))) else content]
  }

  /** A second render changes nothing: `singleton` is set and `content` is no longer a closure. */
  lemma NormaliseIdempotent(d: DriverView, produce: Producer)
    ensures NormaliseForRender(d.(params := NormaliseForRender(d, produce)), produce) == NormaliseForRender(d, produce)
  {
    var r := NormaliseForRender(d, produce);
    var r2 := NormaliseForRender(d.(params := r), produce);
    assert r2.Keys == r.Keys;
  }

  /** The list follows the driver, not HTML's void elements: `param` is in it, `track` and `wbr` are not. */
  lemma SingletonListIsTheDrivers()
    ensures IsSingletonTag(Str("param")) && IsSingletonTag(Str("img"))
    ensures !IsSingletonTag(Str("track")) && !IsSingletonTag(Str("wbr")) && !IsSingletonTag(Str("div"))
  {
  }
}
