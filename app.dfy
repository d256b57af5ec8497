/** The application shell: the history list, the dark-mode flag, the base URL
    of the backend, and the browser storage they are kept in. */
module AppState {
  import opened Common
  import opened Records

  /** The storage key of the history list. */
  const HistoryKey := "devfetch-history"
  /** The storage key of the dark-mode preference. */
  const DarkModeKey := "darkMode"
  /** The backend used when no base URL is configured. */
  const DefaultApiBaseUrl := "http://localhost:5000"

  /** `process.env.REACT_APP_API_URL || 'http://localhost:5000'`: an unset or
      empty setting falls back to the local backend. */
  function ApiBaseUrl(configured: Option<string>): (r: string)
    ensures configured.Some? && configured.value != "" ==> r == configured.value
    ensures configured.None? || configured.value == "" ==> r == DefaultApiBaseUrl
  {
    if configured.Some? then OrText(configured.value, DefaultApiBaseUrl) else DefaultApiBaseUrl
  }

  /** `localStorage.getItem(key)`: null when the key is absent. */
  function Get(storage: map<string, string>, key: string): (r: Option<string>)
    ensures r.Some? <==> key in storage
    ensures r.Some? ==> r.value == storage[key]
  {
    if key in storage then Some(storage[key]) else None
  }

  /** The preference read at start-up: dark when nothing is saved, otherwise
      dark exactly when the saved text is "true". */
  function ParseDarkMode(saved: Option<string>): (dark: bool)
    ensures saved.None? ==> dark
    ensures saved.Some? ==> (dark <==> saved.value == "true")
  {
    if saved.Some? then saved.value == "true" else true
  }

  /** `Boolean.prototype.toString`. */
  function BoolText(b: bool): string {
    if b then "true" else "false"
  }

  /** Reading back the stored text of a flag gives the flag. */
  lemma DarkModeRoundTrip(b: bool)
    ensures ParseDarkMode(Some(BoolText(b))) == b
  {
  }

  /** The new history entry: a fresh id, every field of the completed request,
      and the fresh timestamp. */
  function MakeEntry(id: string, done: CompletedRequest, timestamp: string): (e: HistoryEntry)
    ensures e.id == id && e.timestamp == timestamp
    ensures e.url == done.url && e.httpMethod == done.httpMethod && e.headers == done.headers
    ensures e.body == done.body && e.responseStatus == done.responseStatus
    ensures e.responseTime == done.responseTime && e.response == done.response
  {
    HistoryEntry(id, done.url, done.httpMethod, done.headers, done.body,
                 done.responseStatus, done.responseTime, done.response, timestamp)
  }

  /** `loadHistory`: nothing saved (or an empty text) keeps the current list, a
      saved text that parses replaces it, one that does not parse empties it. */
  function LoadedHistory(saved: Option<string>, decode: string -> Option<seq<HistoryEntry>>,
                         current: seq<HistoryEntry>): (h: seq<HistoryEntry>)
    ensures saved.None? || saved.value == "" ==> h == current
    ensures saved.Some? && saved.value != "" && decode(saved.value).Some? ==> h == decode(saved.value).value
    ensures saved.Some? && saved.value != "" && decode(saved.value).None? ==> h == []
  {
    if saved.None? || saved.value == "" then current
    else match decode(saved.value)
      case Some(list) => list
      case None => []
  }

  /** The JSON codec of the history list is faithful: decoding what was encoded
      gives the list back, and no list encodes to the empty text. */
  ghost predicate RoundTrips(encode: seq<HistoryEntry> -> string, decode: string -> Option<seq<HistoryEntry>>) {
    forall h :: decode(encode(h)) == Some(h) && encode(h) != ""
  }

  /** With a faithful codec, loading what was just written restores that list
      whatever the list in memory was. */
  lemma ReloadRestores(encode: seq<HistoryEntry> -> string, decode: string -> Option<seq<HistoryEntry>>,
                       written: seq<HistoryEntry>, current: seq<HistoryEntry>)
    requires RoundTrips(encode, decode)
    ensures LoadedHistory(Some(encode(written)), decode, current) == written
  {
  }

  class App {
    /** `JSON.stringify` and `JSON.parse` on the history list. */
    const encode: seq<HistoryEntry> -> string
    const decode: string -> Option<seq<HistoryEntry>>

    var history: seq<HistoryEntry>
    var darkMode: bool
    /** The browser's localStorage. */
    var storage: map<string, string>

    /** Mounting the application: the list starts empty and is then loaded from
        storage; the dark-mode preference is read. */
    constructor (storage: map<string, string>, encode: seq<HistoryEntry> -> string,
                 decode: string -> Option<seq<HistoryEntry>>)
      ensures this.storage == storage && this.encode == encode && this.decode == decode
      ensures history == LoadedHistory(Get(storage, HistoryKey), decode, [])
      ensures darkMode == ParseDarkMode(Get(storage, DarkModeKey))
    {
      this.encode := encode;
      this.decode := decode;
      this.storage := storage;
      history := [];
      darkMode := true;
      new;
      LoadHistory();
      darkMode := ParseDarkMode(Get(storage, DarkModeKey));
    }

    /** The stored history is the in-memory one, written by `encode`. */
    ghost predicate InSync()
      reads this
    {
      HistoryKey in storage && storage[HistoryKey] == encode(history)
    }

    method LoadHistory()
      modifies this`history
      ensures history == LoadedHistory(Get(storage, HistoryKey), decode, old(history))
    {
      var saved := Get(storage, HistoryKey);
      if saved.Some? && saved.value != "" {
        var parsed := decode(saved.value);
        if parsed.Some? {
          history := parsed.value;
        } else {
          history := [];
        }
      }
    }

    /** `handleRequestComplete`: the new entry goes in front of the old ones,
        which keep their order; the list is then written to storage, and a
        failed write (`written` false) is swallowed. */
    method HandleRequestComplete(done: CompletedRequest, id: string, timestamp: string, written: bool)
      modifies this`history, this`storage
      ensures history == [MakeEntry(id, done, timestamp)] + old(history)
      ensures |history| == |old(history)| + 1 && history[1..] == old(history)
      ensures storage == if written then old(storage)[HistoryKey := encode(history)] else old(storage)
      ensures written ==> InSync()
    {
      var entry := MakeEntry(id, done, timestamp);
      history := [entry] + history;
      if written {
        storage := storage[HistoryKey := encode(history)];
      }
    }

    /** `clearHistory`: the storage key is removed and the list emptied. */
    method ClearHistory()
      modifies this`history, this`storage
      ensures history == [] && storage == old(storage) - {HistoryKey}
      ensures HistoryKey !in storage
      ensures LoadedHistory(Get(storage, HistoryKey), decode, history) == []
    {
      storage := storage - {HistoryKey};
      history := [];
    }

    /** `toggleDarkMode`: the flag is flipped and its text stored, so that the
        start-up rule reads the new flag back. */
    method ToggleDarkMode()
      modifies this`darkMode, this`storage
      ensures darkMode == !old(darkMode)
      ensures storage == old(storage)[DarkModeKey := BoolText(darkMode)]
      ensures ParseDarkMode(Get(storage, DarkModeKey)) == darkMode
    {
      darkMode := !darkMode;
      storage := storage[DarkModeKey := BoolText(darkMode)];
      DarkModeRoundTrip(darkMode);
    }
  }
}
