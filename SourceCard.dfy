/**
 * The provenance card of a budget category (app/components/SourceCard.tsx):
 * the link to the source document, pointed at a page when one is given, and
 * the badge saying whether a category is selected.
 */
module SourceCard {
  import opened Wrappers
  import opened JsString

  /** `!value` for an optional string: absent or empty. */
  predicate Falsy(value: Option<string>) {
    value.None? || value.value == ""
  }

  /** `href.split("#")[0]`: the longest prefix of `href` without a `#`; what
      follows it, if anything, starts with `#`. */
  function WithoutFragment(href: string): (base: string)
    ensures '#' !in base && StartsWith(href, base)
    ensures |base| < |href| ==> href[|base|] == '#'
  {
    SplitFirst(href, '#');
    Split(href, '#')[0]
  }

  /** buildSourceHref. `numberText(page)` is `String(Number(page))` when
      `Number(page)` is a number and `None` when it is NaN. No link without
      an href; the href itself without a page or with a page that is not a
      number; otherwise the href with its fragment replaced by
      `#page=` and the number. */
  function BuildSourceHref(href: Option<string>, page: Option<string>, numberText: string -> Option<string>)
    : (r: Option<string>)
    ensures r.None? <==> Falsy(href)
    ensures !Falsy(href) && (Falsy(page) || numberText(page.value).None?) ==> r == href
    ensures !Falsy(href) && !Falsy(page) && numberText(page.value).Some? ==>
              r.value == WithoutFragment(href.value) + "#page=" + numberText(page.value).value
  {
    if Falsy(href) then None
    else if Falsy(page) then href
    else
      match numberText(page.value)
      case None => href
      case Some(pageNumber) => Some(WithoutFragment(href.value) + "#page=" + pageNumber)
  }

  /** A numbered link keeps the href up to its first `#`, and has exactly
      one `#`, the one that starts `#page=`. */
  lemma NumberedLinkShape(href: string, page: string, numberText: string -> Option<string>)
    requires href != "" && page != "" && numberText(page).Some? && '#' !in numberText(page).value
    ensures var link := BuildSourceHref(Some(href), Some(page), numberText).value;
            var base := WithoutFragment(href);
            StartsWith(link, base + "#page=") && StartsWith(href, base)
            && forall i | 0 <= i < |link| && link[i] == '#' :: i == |base|
  {
    var link := BuildSourceHref(Some(href), Some(page), numberText).value;
    var base := WithoutFragment(href);
    var n := numberText(page).value;
    assert link == base + "#page=" + n;
    forall i | 0 <= i < |link| && i != |base| ensures link[i] != '#' {
      if i < |base| {
        assert link[i] == base[i] && base[i] in base;
      } else if i > |base| + 5 {
        assert link[i] == n[i - |base| - 6] && n[i - |base| - 6] in n;
      } else {
        assert link[i] == "#page="[i - |base|];
      }
    }
  }

  /** Pointing a link at the same page again changes nothing. */
  lemma BuildSourceHrefIdempotent(href: Option<string>, page: Option<string>, numberText: string -> Option<string>)
    ensures var once := BuildSourceHref(href, page, numberText);
            BuildSourceHref(once, page, numberText) == once
  {
    if !Falsy(href) && !Falsy(page) && numberText(page.value).Some? {
      var base := WithoutFragment(href.value);
      var tail := "page=" + numberText(page.value).value;
      var link := base + "#page=" + numberText(page.value).value;
      assert link == base + ['#'] + tail;
      SplitFirstOf(base, '#', tail);
    }
  }

  /** The badge: "Source verified" exactly when a category is selected,
      "Awaiting selection" otherwise. */
  function BadgeStatus<T>(category: Option<T>): (status: string)
    ensures status == "Source verified" <==> category.Some?
    ensures category.None? ==> status == "Awaiting selection"
  {
    if category.Some? then "Source verified" else "Awaiting selection"
  }
}
