/** The re-entrant route lock as a value: who owns it and how deep (`app/coordinator/routes.py`). */
module RouteLocks {
  import opened Prelude

  type Task = nat

  datatype Lock = Lock(owner: Option<Task>, count: nat)

  const FREE: Lock := Lock(None, 0)

  predicate CanAcquire(l: Lock, t: Task) {
    l.owner == None || l.owner == Some(t)
  }

  function Acquired(l: Lock, t: Task): Lock {
    if l.owner == Some(t) then Lock(Some(t), l.count + 1) else Lock(Some(t), 1)
  }

  function Released(l: Lock): Lock {
    if l.count <= 1 then FREE else Lock(l.owner, l.count - 1)
  }
}
