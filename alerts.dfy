/**
 * The bounded history of processed alert ids kept in the persisted state
 * (`processed_alert_ids`, app/main.py): append, then keep the last 200.
 */
module AlertHistory {

  const AlertHistoryLimit: nat := 200

  /** Python's `s[-n:]`: the last `n` elements, or all of `s` when it is shorter; since
      `-0` is `0`, `s[-0:]` is the whole of `s`. */
  function LastN<T>(s: seq<T>, n: nat): (r: seq<T>)
    ensures |r| == if n == 0 || |s| <= n then |s| else n
    ensures r == s[|s| - |r|..]
  {
    if n == 0 || |s| <= n then s else s[|s| - n..]
  }

  /** Records one alert id: it becomes the newest entry; the oldest entries beyond the limit
      are evicted and the rest keep their order. */
  function RecordAlert(ids: seq<string>, id: string): (r: seq<string>)
    ensures |r| == if |ids| < AlertHistoryLimit then |ids| + 1 else AlertHistoryLimit
    ensures r[|r| - 1] == id && id in r
    ensures r[..|r| - 1] == ids[|ids| - (|r| - 1)..]
  {
    var r := LastN(ids + [id], AlertHistoryLimit);
    assert r[..|r| - 1] == (ids + [id])[|ids| + 1 - |r|..|ids|];
    r
  }

  /** The history after recording `alerts` one after another. */
  function RecordAlerts(ids: seq<string>, alerts: seq<string>): seq<string>
    decreases |alerts|
  {
    if alerts == [] then ids else RecordAlerts(RecordAlert(ids, alerts[0]), alerts[1..])
  }

  /** Trimming early changes nothing: keeping the last n of (the last n of xs) + ys is keeping
      the last n of xs + ys. */
  lemma {:induction false} LastNAbsorbs<T>(xs: seq<T>, ys: seq<T>, n: nat)
    ensures LastN(LastN(xs, n) + ys, n) == LastN(xs + ys, n)
  {
    if n > 0 && |xs| > n {
      var t := LastN(xs, n);
      var a := LastN(t + ys, n);
      var b := LastN(xs + ys, n);
      assert |a| == |b| == n;
      forall i | 0 <= i < n ensures a[i] == b[i] {
        var j := |ys| + i;
        assert a[i] == (t + ys)[j];
        assert b[i] == (xs + ys)[|xs| - n + j];
        if j < n {
          assert (t + ys)[j] == t[j] == xs[|xs| - n + j];
        } else {
          assert (t + ys)[j] == ys[j - n];
        }
      }
    }
  }

  /** Recording any number of alerts keeps exactly the most recent 200 ids of the whole
      sequence, oldest first. */
  lemma {:induction false} RecordAlertsKeepsLatest(ids: seq<string>, alerts: seq<string>)
    requires alerts != [] || |ids| <= AlertHistoryLimit
    ensures RecordAlerts(ids, alerts) == LastN(ids + alerts, AlertHistoryLimit)
    decreases |alerts|
  {
    if alerts == [] {
      assert ids + alerts == ids;
    } else {
      var first, rest := alerts[0], alerts[1..];
      assert alerts == [first] + rest;
      RecordAlertsKeepsLatest(RecordAlert(ids, first), rest);
      RecordThenTrim(ids, first, rest);
    }
  }

  lemma {:induction false} RecordThenTrim(ids: seq<string>, first: string, rest: seq<string>)
    ensures LastN(RecordAlert(ids, first) + rest, AlertHistoryLimit) == LastN(ids + ([first] + rest), AlertHistoryLimit)
  {
    var xs := ids + [first];
    LastNAbsorbs(xs, rest, AlertHistoryLimit);
    AppendIsAssociative(ids, [first], rest);
  }

  lemma AppendIsAssociative<T>(a: seq<T>, b: seq<T>, c: seq<T>)
    ensures (a + b) + c == a + (b + c)
  {
  }

  /** From an empty history, recording a run of alerts keeps its last 200. */
  lemma {:induction false} RecordAlertsFromEmpty(alerts: seq<string>)
    ensures RecordAlerts([], alerts) == LastN(alerts, AlertHistoryLimit)
  {
    var empty: seq<string> := [];
    RecordAlertsKeepsLatest(empty, alerts);
    assert empty + alerts == alerts;
  }

  /** 201 alerts recorded from an empty history leave the last 200, in order. */
  lemma {:induction false} HistoryAfter201Alerts(alerts: seq<string>)
    requires |alerts| == 201
    ensures RecordAlerts([], alerts) == alerts[1..]
  {
    RecordAlertsFromEmpty(alerts);
  }
}
