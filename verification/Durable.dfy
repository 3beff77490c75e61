/** Storage that is written step by step: what a step may meet, and what a power
    cut may leave. */
module Durable {
  /** What happens at one step: it passes, it fails, or the process or the
      machine stops there. */
  datatype Fault = Pass | Fail | Halt

  /** The content that is durable, and the contents renamed over it since the
      last directory sync, oldest first. Renames reach the disk in order, so a
      power cut keeps the first few of them. */
  datatype Disk<C> = Disk(base: C, unsynced: seq<C>) {
    function Visible(): C {
      if unsynced == [] then base else unsynced[|unsynced| - 1]
    }

    function Renamed(content: C): Disk<C> {
      Disk(base, unsynced + [content])
    }

    function Synced(): Disk<C> {
      Disk(Visible(), [])
    }

    /** After a power cut that the first `kept` renames survived. */
    function AfterCut(kept: nat): Disk<C>
      requires kept <= |unsynced|
    {
      Disk(if kept == 0 then base else unsynced[kept - 1], [])
    }
  }
}
