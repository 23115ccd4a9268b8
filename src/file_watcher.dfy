// CounterPlot's FileWatcher: a 100 ms timer that polls one file's
// modification time and calls back with the file when it has changed since
// the last notification. Times are milliseconds; the clock and the file
// system's modification time are parameters of the calls that read them.
module FileWatchers {
  import opened Wrappers

  /** A watched file, by its path. */
  datatype File = File(path: string)

  /** A `std::function<void (File)>`, by identity: the model records the calls, not what they do. */
  datatype Callback = Callback(id: nat)

  /** The polling interval `setFileToWatch` starts the timer with. */
  const PollInterval := 100

  /** The outcome of one poll: whether it notifies, and the time of the last notification after it. */
  datatype Tick = Tick(fires: bool, lastNotified: int)

  /** One poll at time `now`, the file last modified at `modified`: it notifies when the change is later than the last notification. */
  function Poll(lastNotified: int, now: int, modified: int): (t: Tick)
    ensures t.fires <==> lastNotified < modified
    ensures t.lastNotified == if t.fires then now else lastNotified
  {
    if lastNotified < modified then Tick(true, now) else Tick(false, lastNotified)
  }

  /** A run of polls, each `(now, modified)`: the indices of the polls that notify. */
  function Polls(lastNotified: int, ticks: seq<(int, int)>): seq<nat>
    decreases |ticks|
  {
    if ticks == [] then []
    else
      var t := Poll(lastNotified, ticks[0].0, ticks[0].1);
      var rest := Polls(t.lastNotified, ticks[1..]);
      (if t.fires then [0] else []) + seq(|rest|, k requires 0 <= k < |rest| => rest[k] + 1)
  }

  /** No poll notifies when nothing was modified after `lastNotified`. */
  lemma {:induction false} QuietFileNeverNotifies(lastNotified: int, ticks: seq<(int, int)>)
    requires forall k :: 0 <= k < |ticks| ==> ticks[k].1 <= lastNotified
    ensures Polls(lastNotified, ticks) == []
    decreases |ticks|
  {
    if ticks != [] {
      QuietFileNeverNotifies(lastNotified, ticks[1..]);
    }
  }

  /**
   * One save is reported once: when the modification time stays put and the
   * clock reads no earlier than it, only the first poll that sees it notifies.
   */
  lemma {:induction false} OneChangeNotifiesOnce(lastNotified: int, ticks: seq<(int, int)>, modified: int)
    requires forall k :: 0 <= k < |ticks| ==> ticks[k].1 == modified && modified <= ticks[k].0
    ensures |Polls(lastNotified, ticks)| <= 1
    ensures lastNotified < modified && ticks != [] ==> Polls(lastNotified, ticks) == [0]
    decreases |ticks|
  {
    if ticks != [] {
      var t := Poll(lastNotified, ticks[0].0, ticks[0].1);
      if t.fires {
        QuietFileNeverNotifies(t.lastNotified, ticks[1..]);
      } else {
        OneChangeNotifiesOnce(lastNotified, ticks[1..], modified);
      }
    }
  }

  class FileWatcher {
    var lastNotified: int
    var file: File
    var callback: Option<Callback>
    /** The timer's interval while it runs. */
    var timer: Option<int>

    /** A new watcher watches no file, has no callback and no running timer. */
    constructor ()
      ensures lastNotified == 0 && file == File("") && callback == None && timer == None
    {
      lastNotified := 0;
      file := File("");
      callback := None;
      timer := None;
    }

    /** `setCallback`: the callback later polls invoke. */
    method SetCallback(c: Option<Callback>)
      modifies this
      ensures callback == c
      ensures lastNotified == old(lastNotified) && file == old(file) && timer == old(timer)
    {
      callback := c;
    }

    /** `setFileToWatch`: starts polling `f`, counting only changes after `now`. */
    method SetFileToWatch(f: File, now: int)
      modifies this
      ensures timer == Some(PollInterval) && file == f && lastNotified == now
      ensures callback == old(callback)
    {
      timer := Some(PollInterval);
      file := f;
      lastNotified := now;
    }

    /**
     * `timerCallback`: when the file was modified after the last
     * notification, the notification time becomes `now` (with or without a
     * callback) and the callback, if any, receives the watched file once.
     */
    method TimerCallback(now: int, modified: int) returns (calls: seq<(Callback, File)>)
      modifies this
      ensures lastNotified == Poll(old(lastNotified), now, modified).lastNotified
      ensures calls == if old(lastNotified) < modified && callback.Some? then [(callback.value, file)] else []
      ensures file == old(file) && callback == old(callback) && timer == old(timer)
    {
      calls := [];
      if lastNotified < modified {
        lastNotified := now;
        if callback.Some? {
          calls := [(callback.value, file)];
        }
      }
    }
  }
}
