/** The client's language handling (script.js): the three supported codes,
    the choice of the starting code, the toggle that cycles through them,
    and `changeLanguage`, which applies a translation dictionary to the
    page. The page is reduced to what `changeLanguage` touches: the tagged
    elements, the toggle button's label, the AI section's visibility, the
    `lang` parameter of the address and the saved preference. */
module Language {
  import opened JsText

  /** The supported codes, in toggle order. */
  const Languages: seq<string> := ["az", "en", "ru"]

  /** `languages.includes(code)`, else the default "az". */
  function Normalize(code: string): (r: string)
    ensures r in Languages
    ensures code in Languages ==> r == code
    ensures code !in Languages ==> r == "az"
  {
    if code in Languages then code else "az"
  }

  /** The starting code: the address's `lang` parameter if it is set and
      not empty, else the saved preference if it is set and not empty,
      else "az"; the chosen value is then checked. A bad address
      parameter gives "az" and does not fall back to the saved
      preference. */
  function InitialCode(url: Option<string>, saved: Option<string>): (r: string)
    ensures r in Languages
  {
    var chosen := if Truthy(url) then url.value else if Truthy(saved) then saved.value else "az";
    Normalize(chosen)
  }

  /** The precedence of the three sources, case by case. */
  lemma InitialCodePrecedence(url: Option<string>, saved: Option<string>)
    ensures Truthy(url) && url.value in Languages ==> InitialCode(url, saved) == url.value
    ensures Truthy(url) && url.value !in Languages ==> InitialCode(url, saved) == "az"
    ensures !Truthy(url) && Truthy(saved) ==> InitialCode(url, saved) == Normalize(saved.value)
    ensures !Truthy(url) && !Truthy(saved) ==> InitialCode(url, saved) == "az"
  {
  }

  /** `languages.indexOf(x)`: the first index holding `x`, or -1. */
  function IndexOf(xs: seq<string>, x: string): (r: int)
    ensures -1 <= r < |xs|
    ensures r >= 0 ==> xs[r] == x && forall i :: 0 <= i < r ==> xs[i] != x
    ensures r < 0 ==> x !in xs
  {
    if |xs| == 0 then -1
    else if xs[0] == x then 0
    else
      var k := IndexOf(xs[1..], x);
      assert forall i :: 1 <= i < |xs| ==> xs[i] == xs[1..][i - 1];
      if k < 0 then -1 else k + 1
  }

  /** The code the toggle button switches to. */
  function NextCode(current: string): (r: string)
    ensures r in Languages
  {
    var index := IndexOf(Languages, current);
    Languages[(index + 1) % |Languages|]
  }

  /** The toggle goes az -> en -> ru -> az, and from an unknown code to
      "az". */
  lemma NextCodeCycle(current: string)
    ensures current == "az" ==> NextCode(current) == "en"
    ensures current == "en" ==> NextCode(current) == "ru"
    ensures current == "ru" ==> NextCode(current) == "az"
    ensures current !in Languages ==> NextCode(current) == "az"
  {
    assert Languages[0] == "az" && Languages[1] == "en" && Languages[2] == "ru";
    if current == "en" {
      assert IndexOf(Languages, current) == 1;
    } else if current == "ru" {
      assert IndexOf(Languages, current) == 2;
    }
  }

  /** Three presses of the toggle come back to the code they started
      from, and the three codes met on the way are all different. */
  lemma ThreePressesReturn(current: string)
    requires current in Languages
    ensures NextCode(NextCode(NextCode(current))) == current
    ensures NextCode(current) != current
    ensures NextCode(NextCode(current)) != current
  {
    NextCodeCycle(current);
    NextCodeCycle(NextCode(current));
    NextCodeCycle(NextCode(NextCode(current)));
  }

  /** An element tagged with `data-key`: its key and its inner HTML. */
  datatype Element = Element(key: string, html: string)

  /** `dictionary[key]`, which is `undefined` for a missing key. */
  function Lookup(dictionary: map<string, string>, key: string): Option<string>
  {
    if key in dictionary then Some(dictionary[key]) else None
  }

  /** The `forEach` over the tagged elements: an element whose key has a
      non-empty entry takes that text; every other element keeps its own.
      Order and keys are kept. */
  method ApplyDictionary(elements: seq<Element>, dictionary: map<string, string>)
    returns (r: seq<Element>)
    ensures |r| == |elements|
    ensures forall i :: 0 <= i < |r| ==> r[i].key == elements[i].key
    ensures forall i :: 0 <= i < |r| ==>
              if Truthy(Lookup(dictionary, elements[i].key))
              then r[i].html == dictionary[elements[i].key]
              else r[i].html == elements[i].html
  {
    r := [];
    var i := 0;
    while i < |elements|
      invariant 0 <= i <= |elements| && |r| == i
      invariant forall j :: 0 <= j < i ==> r[j].key == elements[j].key
      invariant forall j :: 0 <= j < i ==>
                  if Truthy(Lookup(dictionary, elements[j].key))
                  then r[j].html == dictionary[elements[j].key]
                  else r[j].html == elements[j].html
    {
      var el := elements[i];
      var entry := Lookup(dictionary, el.key);
      if Truthy(entry) {
        r := r + [Element(el.key, entry.value)];
      } else {
        r := r + [el];
      }
      i := i + 1;
    }
  }

  /** The state of the page that the language code drives. */
  class Page {
    /** `currentLang`, which the toggle reads. */
    var currentLang: string
    /** The elements that carry a `data-key` attribute, in document order. */
    var elements: seq<Element>
    /** The toggle button's label; `None` when the page has no button. */
    var toggleLabel: Option<string>
    /** Whether the AI counsellor section is shown; `None` when the page
        has no such section. */
    var aiVisible: Option<bool>
    /** The `lang` parameter of the address. */
    var urlLang: Option<string>
    /** The saved preference `selectedLang`. */
    var savedLang: Option<string>

    predicate Valid()
      reads this
    {
      currentLang in Languages
    }

    /** The state after `changeLanguage` has applied `dictionary` for
        `code`, starting from the given elements, button label, saved
        preference and AI section: each element whose key has a non-empty
        entry takes it and every other keeps its text, the button (when
        there is one) takes a non-empty `btn_text`, the code is in the
        address and, when storage allows, saved, it is the current code,
        and the AI section (when there is one) is shown exactly for "en". */
    predicate Applied(code: string, dictionary: map<string, string>, storageOk: bool,
                      elements0: seq<Element>, label0: Option<string>,
                      saved0: Option<string>, ai0: Option<bool>)
      reads this
    {
      && |elements| == |elements0|
      && (forall i :: 0 <= i < |elements| ==> elements[i].key == elements0[i].key)
      && (forall i :: 0 <= i < |elements| ==>
            if Truthy(Lookup(dictionary, elements0[i].key))
            then elements[i].html == dictionary[elements0[i].key]
            else elements[i].html == elements0[i].html)
      && toggleLabel == (if label0.Some? && Truthy(Lookup(dictionary, "btn_text"))
                         then Some(dictionary["btn_text"]) else label0)
      && urlLang == Some(code)
      && savedLang == (if storageOk then Some(code) else saved0)
      && currentLang == code
      && aiVisible == (if ai0.Some? then Some(code == "en") else None)
    }

    /** Page load: the starting code as `InitialCode` chooses it, then
        `changeLanguage` on that code. `loaded` says whether the
        dictionary script could be loaded, `translations` is what the
        loaded scripts define, `storageOk` whether the preference could be
        written. */
    constructor Load(url: Option<string>, saved: Option<string>, tagged: seq<Element>,
                     button: Option<string>, ai: Option<bool>,
                     loaded: bool, translations: map<string, map<string, string>>, storageOk: bool)
      ensures Valid()
      ensures currentLang == InitialCode(url, saved)
      ensures !loaded || currentLang !in translations ==>
                elements == tagged && toggleLabel == button && aiVisible == ai
                && urlLang == url && savedLang == saved
      ensures loaded && currentLang in translations ==>
                Applied(currentLang, translations[currentLang], storageOk, tagged, button, saved, ai)
    {
      currentLang := InitialCode(url, saved);
      elements := tagged;
      toggleLabel := button;
      aiVisible := ai;
      urlLang := url;
      savedLang := saved;
      new;
      ChangeLanguage(currentLang, loaded, translations, storageOk);
    }

    /** `changeLanguage(lang)`. When the dictionary script fails to load or
        leaves no dictionary for the code, nothing changes. Otherwise the
        dictionary is applied to the tagged elements and to the toggle
        label (when it has a non-empty `btn_text`), the code is written to
        the address and, when storage allows, to the saved preference, it
        becomes the current code, and the AI section is shown exactly for
        "en". */
    method ChangeLanguage(lang: string, loaded: bool,
                          translations: map<string, map<string, string>>, storageOk: bool)
      requires Valid()
      modifies this
      ensures Valid()
      ensures var code := Normalize(lang);
              if !loaded || code !in translations then
                unchanged(this)
              else
                Applied(code, translations[code], storageOk,
                        old(elements), old(toggleLabel), old(savedLang), old(aiVisible))
      ensures loaded && Normalize(lang) in translations ==> ReloadCode() == currentLang
    {
      var code := Normalize(lang);
      if !loaded {
        return;
      }
      if code !in translations {
        return;
      }
      var dictionary := translations[code];
      elements := ApplyDictionary(elements, dictionary);
      var buttonText := Lookup(dictionary, "btn_text");
      if toggleLabel.Some? && Truthy(buttonText) {
        toggleLabel := Some(buttonText.value);
      }
      urlLang := Some(code);
      if storageOk {
        savedLang := Some(code);
      }
      currentLang := code;
      if aiVisible.Some? {
        aiVisible := Some(code == "en");
      }
      ReloadKeepsChoice(code, savedLang);
    }

    /** A click on the toggle button: `changeLanguage` on the next code. */
    method Toggle(loaded: bool, translations: map<string, map<string, string>>, storageOk: bool)
      requires Valid()
      modifies this
      ensures Valid()
      ensures var next := NextCode(old(currentLang));
              if !loaded || next !in translations then
                unchanged(this)
              else
                Applied(next, translations[next], storageOk,
                        old(elements), old(toggleLabel), old(savedLang), old(aiVisible))
    {
      var next := NextCode(currentLang);
      ChangeLanguage(next, loaded, translations, storageOk);
    }

    /** The start code a reload of the page would choose. */
    function ReloadCode(): (r: string)
      reads this
      ensures r in Languages
    {
      InitialCode(urlLang, savedLang)
    }
  }

  /** Once `changeLanguage` has written a supported code into the address,
      a reload starts in that code, whatever the saved preference says. */
  lemma ReloadKeepsChoice(code: string, saved: Option<string>)
    requires code in Languages
    ensures InitialCode(Some(code), saved) == code
  {
    assert code != "";
  }
}
