// The window-wide "dashboardUpdate" custom event. Listeners and their
// teardown are not modelled; the channel only counts what was dispatched, so
// that each operation can state how many broadcasts it emits.
module Eventos {

  class Canal {
    /** Number of `window.dispatchEvent(new CustomEvent("dashboardUpdate"))` calls so far. */
    ghost var emisiones: nat

    constructor ()
      ensures emisiones == 0
    {
      emisiones := 0;
    }

    /** Dispatch one "dashboardUpdate" event. */
    method Emitir()
      modifies this
      ensures emisiones == old(emisiones) + 1
    {
      emisiones := emisiones + 1;
    }
  }
}
