/** The plugin's settings as the host settings object hands them out, and the
    presentation snapshot that is copied into the template data on every render. */
module PluginSettings {
  import opened JsValues

  /** What `plugin.settings.get(key)` answers for each key that holds a value. */
  type Settings = map<string, JsValue>

  /** `plugin.settings.get(key)`: a key that holds nothing reads as `undefined`. */
  function Get(s: Settings, key: string): (v: JsValue)
    ensures key !in s ==> v == Undefined
    ensures key in s ==> v == s[key]
  {
    if key in s then s[key] else Undefined
  }

  /** The defaults the plugin registers with the host settings store. */
  const Defaults: Settings := map[
    "title" := Str("Recent Topics"),
    "opacity" := Str("1.0"),
    "textShadow" := Str("none"),
    "enableCarousel" := Num(0),
    "enableCarouselPagination" := Num(0)
  ]

  /** Whether the full candidate list is shown as a carousel instead of being
      trimmed and de-duplicated. */
  function CarouselEnabled(s: Settings): (on: bool)
    ensures on <==> "enableCarousel" in s && Truthy(s["enableCarousel"])
  {
    Truthy(Get(s, "enableCarousel"))
  }

  /** The `recentCards` record of the template data. */
  datatype Presentation = Presentation(
    title: JsValue,
    opacity: JsValue,
    textShadow: JsValue,
    enableCarousel: JsValue,
    enableCarouselPagination: JsValue)

  /** The keys the snapshot reads. The text shadow is read from key "shadow",
      which the registered defaults do not define (they define "textShadow"). */
  const SnapshotKeys: set<string> :=
    {"title", "opacity", "shadow", "enableCarousel", "enableCarouselPagination"}

  function Snapshot(s: Settings): (p: Presentation)
    ensures p.title == Get(s, "title") && p.opacity == Get(s, "opacity")
    ensures p.textShadow == Get(s, "shadow")
    ensures p.enableCarousel == Get(s, "enableCarousel")
    ensures p.enableCarouselPagination == Get(s, "enableCarouselPagination")
    // Spelled out from the line above: without a "shadow" setting the shadow is undefined.
    ensures "shadow" !in s ==> p.textShadow == Undefined
    ensures Truthy(p.enableCarousel) <==> CarouselEnabled(s)
  {
    Presentation(
      Get(s, "title"),
      Get(s, "opacity"),
      Get(s, "shadow"),
      Get(s, "enableCarousel"),
      Get(s, "enableCarouselPagination"))
  }

  /** The "textShadow" setting is never read by the snapshot: changing the
      "textShadow" setting leaves the snapshot as it was. */
  lemma SnapshotIgnoresTextShadow(s: Settings, v: JsValue)
    ensures Snapshot(s["textShadow" := v]) == Snapshot(s)
  {
  }

  /** Only the five snapshot keys influence the snapshot. */
  lemma SnapshotReadsOnlyItsKeys(s: Settings, k: string, v: JsValue)
    requires k !in SnapshotKeys
    ensures Snapshot(s[k := v]) == Snapshot(s)
  {
  }

  /** With the registered defaults the carousel is off and the shadow is
      `undefined`, although the default text shadow is "none". */
  lemma DefaultSnapshot()
    ensures !CarouselEnabled(Defaults)
    ensures Snapshot(Defaults)
      == Presentation(Str("Recent Topics"), Str("1.0"), Undefined, Num(0), Num(0))
  {
  }
}
