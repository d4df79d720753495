/** The threads that take the lock of a queue, or of the poller, without being its own worker. */
module Threads {

  datatype Thread =
    | PollerThread
    | OpsThread(i: nat)        // a worker of the operations queue
    | PublisherThread(i: nat)  // a worker of the results queue
    | TimerThread(i: nat)      // logs sender, metrics timer
    | StopperThread(i: nat)    // runs the shutdown sequence
    | ListenerThread(i: nat)   // delivers server events
}
