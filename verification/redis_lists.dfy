/** The blocked-date and cancelled-booking lists kept under two Redis keys
    (server/blocked-dates-store.js). Each operation reads the whole list,
    changes it and writes it back; the Redis client is replaced by one field
    per key and the environment read at start-up, which decides whether a
    client exists. */
module RedisLists {

  import opened Calendar
  import opened StringLists

  /** A JSON scalar as it may sit in a stored list. */
  datatype Scalar = Text(text: string) | Number(n: int) | Bool(b: bool) | Null

  /** What reading a key gives: nothing, a list (stored as an array or as the
      text of a JSON array), or any other value. */
  datatype Stored<T> = Missing | Array(items: seq<T>) | NotArray

  /** The decimal digits of n, without leading zeros. */
  function NatDigits(n: nat): (r: string)
    ensures |r| >= 1
    ensures forall k :: 0 <= k < |r| ==> IsDigit(r[k])
  {
    if n < 10 then [DigitChar(n)] else NatDigits(n / 10) + [DigitChar(n % 10)]
  }

  /** `String(x)` for the scalars a list may hold; numbers are integers. */
  function JsString(x: Scalar): (r: string)
    ensures x.Text? ==> r == x.text
    ensures x.Number? ==> |r| >= 1 && (x.n < 0 <==> r[0] == '-')
    ensures r == "" ==> x == Text("")
  {
    match x
    case Text(s) => s
    case Number(n) => if n < 0 then "-" + NatDigits(-n) else NatDigits(n)
    case Bool(b) => if b then "true" else "false"
    case Null => "null"
  }

  /** `JSON.stringify` of a list of strings, as read back. */
  function Texts(s: seq<string>): (r: seq<Scalar>)
    ensures |r| == |s|
    ensures forall k :: 0 <= k < |s| ==> r[k] == Text(s[k])
  {
    if s == [] then [] else [Text(s[0])] + Texts(s[1..])
  }

  function Strings(s: seq<Scalar>): (r: seq<string>)
    ensures |r| == |s|
    ensures forall k :: 0 <= k < |s| ==> r[k] == JsString(s[k])
  {
    if s == [] then [] else [JsString(s[0])] + Strings(s[1..])
  }

  /** Writing a list of strings and reading it back gives the same list. */
  lemma StringsOfTexts(s: seq<string>)
    ensures Strings(Texts(s)) == s
  {
  }

  /** The four environment variables read at start-up; one that is unset
      reads as "". */
  datatype RedisEnv = RedisEnv(upstashUrl: string, kvUrl: string, upstashToken: string, kvToken: string)

  /** JavaScript's `a || b` on two strings: `a` unless it is empty. */
  function OrElse(a: string, b: string): (r: string)
    ensures r == "" <==> a == "" && b == ""
    ensures a != "" ==> r == a
  {
    if a != "" then a else b
  }

  class ListStore {
    /** The environment the module was loaded with. */
    const env: RedisEnv
    var blocked: Stored<string>
    var cancelled: Stored<Scalar>

    constructor (env: RedisEnv, blocked: Stored<string>, cancelled: Stored<Scalar>)
      ensures this.env == env
      ensures this.blocked == blocked && this.cancelled == cancelled
    {
      this.env := env;
      this.blocked := blocked;
      this.cancelled := cancelled;
    }

    /** useRedis: a client was created at start-up, which happens when the
        URL (Upstash's, else KV's) and the token (likewise) are both set. */
    predicate UseRedis()
      ensures UseRedis() <==>
        (env.upstashUrl != "" || env.kvUrl != "") && (env.upstashToken != "" || env.kvToken != "")
    {
      var url := OrElse(env.upstashUrl, env.kvUrl);
      var token := OrElse(env.upstashToken, env.kvToken);
      url != "" && token != ""
    }

    /** getBlockedDatesFromStore: the stored list, or [] without a client or
        when the stored value is not a list. */
    function GetBlockedDates(): (r: seq<string>)
      reads this
      ensures !UseRedis() || !blocked.Array? ==> r == []
      ensures UseRedis() && blocked.Array? ==> r == blocked.items
    {
      if UseRedis() && blocked.Array? then blocked.items else []
    }

    /** getCancelledBookingsFromStore: every stored element turned into a
        string, or [] without a client or when the value is not a list. */
    function GetCancelledBookings(): (r: seq<string>)
      reads this
      ensures !UseRedis() || !cancelled.Array? ==> r == []
      ensures UseRedis() && cancelled.Array? ==>
        |r| == |cancelled.items| && forall k :: 0 <= k < |r| ==> r[k] == JsString(cancelled.items[k])
    {
      if UseRedis() && cancelled.Array? then Strings(cancelled.items) else []
    }

    /** addBlockedDateToStore: the first ten characters must be a YYYY-MM-DD
        key not yet listed; the list with it, sorted, is written back. */
    method AddBlockedDate(date: string) returns (added: bool)
      modifies this
      ensures added <==> IsDateFormat(Take10(date)) && UseRedis() && Take10(date) !in old(GetBlockedDates())
      ensures added ==> blocked == Array(Sort(old(GetBlockedDates()) + [Take10(date)]))
      ensures added ==> Sorted(GetBlockedDates()) && Take10(date) in GetBlockedDates()
      ensures added ==> multiset(GetBlockedDates()) == multiset(old(GetBlockedDates())) + multiset{Take10(date)}
      ensures !added ==> blocked == old(blocked)
      ensures cancelled == old(cancelled)
    {
      var d := Take10(date);
      if !IsDateFormat(d) {
        return false;
      }
      if !UseRedis() {
        return false;
      }
      var list := GetBlockedDates();
      if d in list {
        return false;
      }
      list := Sort(list + [d]);
      assert d in multiset(list);
      blocked := Array(list);
      added := true;
    }

    /** removeBlockedDateFromStore: the first occurrence of the first ten
        characters is spliced out and the list written back; no format
        check. */
    method RemoveBlockedDate(date: string) returns (removed: bool)
      modifies this
      ensures removed <==> UseRedis() && Take10(date) in old(GetBlockedDates())
      ensures removed ==> blocked == Array(RemoveAt(old(GetBlockedDates()), IndexOf(old(GetBlockedDates()), Take10(date))))
      ensures removed ==> multiset(GetBlockedDates()) == multiset(old(GetBlockedDates())) - multiset{Take10(date)}
      ensures removed && Sorted(old(GetBlockedDates())) ==> Sorted(GetBlockedDates())
      ensures !removed ==> blocked == old(blocked)
      ensures cancelled == old(cancelled)
    {
      var d := Take10(date);
      if !UseRedis() {
        return false;
      }
      var list := GetBlockedDates();
      var idx := IndexOf(list, d);
      if idx == -1 {
        return false;
      }
      MultisetRemoveAt(list, idx);
      if Sorted(list) {
        RemoveAtSorted(list, idx);
      }
      blocked := Array(RemoveAt(list, idx));
      removed := true;
    }

    /** addCancelledBookingToStore: the id as a string, if not empty and not
        yet listed, is appended at the end; no sorting. */
    method AddCancelledBooking(id: Scalar) returns (added: bool)
      modifies this
      ensures added <==> JsString(id) != "" && UseRedis() && JsString(id) !in old(GetCancelledBookings())
      ensures added ==> cancelled == Array(Texts(old(GetCancelledBookings()) + [JsString(id)]))
      ensures added ==> GetCancelledBookings() == old(GetCancelledBookings()) + [JsString(id)]
      ensures added && NoDuplicates(old(GetCancelledBookings())) ==> NoDuplicates(GetCancelledBookings())
      ensures !added ==> cancelled == old(cancelled)
      ensures blocked == old(blocked)
    {
      var key := JsString(id);
      if key == "" {
        return false;
      }
      if !UseRedis() {
        return false;
      }
      var list := GetCancelledBookings();
      if key in list {
        return false;
      }
      list := list + [key];
      cancelled := Array(Texts(list));
      StringsOfTexts(list);
      added := true;
    }
  }

  /** A date blocked and then unblocked leaves a sorted stored list as it
      was. */
  lemma BlockThenUnblock(s: seq<string>, date: string)
    requires Sorted(s) && Take10(date) !in s
    ensures var t := Sort(s + [Take10(date)]);
      0 <= IndexOf(t, Take10(date)) && RemoveAt(t, IndexOf(t, Take10(date))) == s
  {
    SortAppend(s, Take10(date));
    InsertThenRemove(s, Take10(date));
  }
}
