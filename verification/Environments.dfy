/** What may go wrong around the service: the stores, the network between, signing, random bytes. */
module Environments {

  /**
   While the environment is sound, nothing fails. It may become unsound or sound again between two
   calls, but no call of the service can change it.
   */
  class Environment {
    var sound: bool

    constructor (sound: bool)
      ensures this.sound == sound
    {
      this.sound := sound;
    }

    /** Does the next step fail? */
    method Fails() returns (failed: bool)
      ensures sound ==> !failed
    {
      var perhaps: bool := *;
      failed := perhaps && !sound;
    }
  }
}
