/** The token by which other threads may ask a worker to stop, at any time. */
module StopTokens {

  class StopToken {
    const readings: nat -> bool
    var polled: nat

    constructor (readings: nat -> bool)
      ensures this.readings == readings && polled == 0
    {
      this.readings, polled := readings, 0;
    }

    method Poll() returns (stopped: bool)
      modifies this
      ensures stopped == readings(old(polled)) && polled == old(polled) + 1
    {
      stopped := readings(polled);
      polled := polled + 1;
    }
  }
}
