/** A log of consecutively numbered items that may be added in any order and are read in number order. */
module AsyncLogs {
  import opened Topology

  /** The value of an asynchronous log: the buffered items and the number to be read next. */
  datatype Window<T> = Window(log: map<nat, T>, next: nat) {
    predicate HasNext() {
      next in log
    }
  }

  /** An item behind the cursor is dropped; an item at a taken position is an error. */
  function Inserted<T>(w: Window<T>, position: nat, item: T): Result<Window<T>> {
    if position < w.next then Success(w)
    else if position in w.log then Failure("Log position has already been taken")
    else Success(w.(log := w.log[position := item]))
  }

  function Advance<T>(w: Window<T>): Window<T>
    requires w.HasNext()
  {
    Window(w.log - {w.next}, w.next + 1)
  }

  class AsyncLog<T> {
    var log: map<nat, T>
    var next: nat

    function View(): Window<T>
      reads this
    {
      Window(log, next)
    }

    constructor (startFrom: nat := 0)
      ensures View() == Window(map[], startFrom)
    {
      log, next := map[], startFrom;
    }

    /** Throws, and leaves the log alone, exactly when the position is taken. */
    method Insert(position: nat, item: T) returns (r: Result<()>)
      modifies this
      ensures match Inserted(old(View()), position, item)
              case Success(w) => r == Success(()) && View() == w
              case Failure(e) => r == Failure(e) && View() == old(View())
    {
      if position < next {
        return Success(());
      }
      if position in log {
        return Failure("Log position has already been taken");
      }
      log := log[position := item];
      return Success(());
    }

    method Next() returns (r: Result<(nat, T)>)
      modifies this
      ensures old(View().HasNext()) ==>
                && r == Success((old(next), old(log)[old(next)]))
                && View() == Advance(old(View()))
      ensures !old(View().HasNext()) ==> r.Failure? && View() == old(View())
    {
      if next !in log {
        return Failure("Next item does not exist");
      }
      var position := next;
      next := next + 1;
      r := Success((position, log[position]));
      log := log - {position};
    }
  }
}
