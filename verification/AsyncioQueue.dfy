/** asyncio.Queue as the event loop sees it: items, tasks waiting in get, and tasks whose waiter future
    is done but which have not run yet. */
module AsyncioQueue {

  datatype Queue<T> = Queue(items: seq<T>, waiting: nat, woken: nat) {
    function PutNowait(x: T): Queue<T> {
      Queue(items + [x], waiting, woken).WakeNext()
    }

    function WakeNext(): Queue<T> {
      if waiting > 0 then this.(waiting := waiting - 1, woken := woken + 1) else this
    }

    /** A task that finds no item parks. */
    function Park(): Queue<T> {
      this.(waiting := waiting + 1)
    }

    function Pop(): Queue<T>
      requires items != []
    {
      this.(items := items[1..])
    }

    /** A woken task gets to run. */
    function Run(): Queue<T>
      requires woken > 0
    {
      this.(woken := woken - 1)
    }

    function CancelWaiting(): Queue<T>
      requires waiting > 0
    {
      this.(waiting := waiting - 1)
    }

    /** A cancelled task whose future was already done passes its wakeup on. */
    function CancelWoken(): Queue<T>
      requires woken > 0
    {
      if items != [] then Run().WakeNext() else Run()
    }

    /** While a task is parked, every item has a woken task on its way. */
    predicate Covered() {
      waiting > 0 ==> woken >= |items|
    }

    function Blocked(): nat {
      waiting + woken
    }
  }
}
