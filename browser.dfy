/** The browser facilities the application uses, as injected state:
    `localStorage`, the clock, `setInterval`/`clearInterval`, and the
    network (the tracking server and the Slack webhook as oracles, with a
    log of every request sent). */
module Browser {
  import opened Model

  /** A `localStorage` entry: absent, holding a value, or holding text that
      `JSON.parse` rejects. */
  datatype Entry<T> = Missing | Saved(value: T) | Unparsable

  class LocalStorage {
    /** The value under 'deliala_tracking_data'. */
    var trackingEntry: Entry<seq<Record>>
    /** The value under 'deliala_settings'. */
    var settingsEntry: Entry<SettingsPatch>
    /** The value under 'sweettracker_api_key'. */
    var apiKey: Option<string>
    /** False when `setItem` and `removeItem` throw (quota exceeded, storage disabled). */
    var writable: bool

    constructor (tracking: Entry<seq<Record>>, settings: Entry<SettingsPatch>, key: Option<string>, canWrite: bool)
      ensures trackingEntry == tracking && settingsEntry == settings
      ensures apiKey == key && writable == canWrite
    {
      trackingEntry, settingsEntry, apiKey, writable := tracking, settings, key, canWrite;
    }
  }

  /** Wall-clock time in milliseconds. Only waiting moves it. */
  class Clock {
    var now: int

    constructor (start: int)
      ensures now == start
    {
      now := start;
    }

    /** `await new Promise(resolve => setTimeout(resolve, ms))` */
    method Wait(ms: nat)
      modifies this
      ensures now == old(now) + ms
    {
      now := now + ms;
    }
  }

  /** The repeating timers registered with `setInterval`: handle to period in
      milliseconds. Handles are positive and never reused. */
  class Timers {
    var active: map<nat, int>
    var nextHandle: nat

    ghost predicate Valid()
      reads this
    {
      nextHandle >= 1 && forall h :: h in active ==> 1 <= h < nextHandle
    }

    constructor ()
      ensures Valid() && active == map[]
    {
      active, nextHandle := map[], 1;
    }

    method SetInterval(periodMs: int) returns (handle: nat)
      requires Valid()
      modifies this
      ensures Valid()
      ensures handle >= 1 && handle !in old(active)
      ensures active == old(active)[handle := periodMs]
    {
      handle := nextHandle;
      active := active[handle := periodMs];
      nextHandle := nextHandle + 1;
    }

    method ClearInterval(handle: nat)
      requires Valid()
      modifies this
      ensures Valid()
      ensures active == old(active) - {handle}
    {
      active := active - {handle};
    }
  }

  class Network {
    /** The tracking server: at a time, for an API key, carrier code and invoice number. */
    const tracker: (int, string, string, string) -> Reply
    /** The webhook endpoint: at a time, for a URL and a payload. */
    const webhook: (int, string, SlackMessage) -> Delivery
    /** `import.meta.env.DEV`: the development build posts through the dev-server proxy. */
    const devBuild: bool
    /** Every request sent, oldest first. */
    var requests: seq<Request>

    constructor (server: (int, string, string, string) -> Reply, endpoint: (int, string, SlackMessage) -> Delivery, dev: bool)
      ensures tracker == server && webhook == endpoint && devBuild == dev
      ensures requests == []
    {
      tracker, webhook, devBuild := server, endpoint, dev;
      requests := [];
    }
  }
}
