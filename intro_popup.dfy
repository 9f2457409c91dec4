/**
 * The one-time disclaimer of nextjs-client/src/app/components/intro-popup.tsx: a
 * visibility flag set when the component mounts and cleared by its Enter button, and the
 * browser's durable key-value store that remembers the click across visits.
 */
module IntroPopup {
  import opened Wrappers

  const StorageKey: string := "voice-stockbot-intro-clicked"

  /** `localStorage`: outlives every component that reads it. */
  class LocalStorage {
    var items: map<string, string>

    constructor (items: map<string, string>)
      ensures this.items == items
    {
      this.items := items;
    }

    function GetItem(key: string): (r: Option<string>)
      reads this
      ensures r.Some? <==> key in items
      ensures r.Some? ==> r.value == items[key]
    {
      if key in items then Some(items[key]) else None
    }

    method SetItem(key: string, value: string)
      modifies this
      ensures items == old(items)[key := value]
    {
      items := items[key := value];
    }
  }

  /** Whether the store holds a truthy value under the key: `getItem` gives null when it is missing. */
  predicate Clicked(items: map<string, string>) {
    StorageKey in items && items[StorageKey] != ""
  }

  /** What the component renders: nothing, or the disclaimer card. */
  datatype View = Nothing | DisclaimerCard

  class Popup {
    var isVisible: bool
    const storage: LocalStorage

    /** `useState(false)`: the popup starts hidden. */
    constructor (storage: LocalStorage)
      ensures !isVisible && this.storage == storage
    {
      isVisible := false;
      this.storage := storage;
    }

    /** The mount effect: show the popup when the store has no truthy click flag. */
    method Mount()
      modifies this`isVisible
      ensures isVisible == (old(isVisible) || !Clicked(storage.items))
    {
      var hasClickedIntro := storage.GetItem(StorageKey);
      if hasClickedIntro.None? || hasClickedIntro.value == "" {
        isVisible := true;
      }
    }

    /** `handleEnter`: hide the popup and remember the click. */
    method HandleEnter()
      modifies this`isVisible, storage
      ensures !isVisible
      ensures storage.items == old(storage.items)[StorageKey := "true"]
    {
      isVisible := false;
      storage.SetItem(StorageKey, "true");
    }

    /** `if (!isVisible) return null`. */
    function Render(): (v: View)
      reads this
      ensures v == DisclaimerCard <==> isVisible
    {
      if isVisible then DisclaimerCard else Nothing
    }
  }

  /**
   * Two visits sharing one store: the first shows the disclaimer exactly when it had not
   * been acknowledged before, the visitor presses Enter, and the second visit shows nothing.
   */
  method TwoVisits(storage: LocalStorage) returns (firstVisit: View, secondVisit: View)
    modifies storage
    ensures firstVisit == (if Clicked(old(storage.items)) then Nothing else DisclaimerCard)
    ensures secondVisit == Nothing
    ensures Clicked(storage.items)
  {
    var first := new Popup(storage);
    first.Mount();
    firstVisit := first.Render();
    first.HandleEnter();
    var second := new Popup(storage);
    second.Mount();
    secondVisit := second.Render();
  }
}
