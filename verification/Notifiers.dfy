/** The flags that the accept loop shares with the servlets (src/server/Notifier.cpp). */
module Notifiers {

  class AtomicFlag {
    var value: bool

    constructor (value: bool)
      ensures this.value == value
    {
      this.value := value;
    }
  }

  /** A channel's entry is null when pass_ptr was asked for it before update. */
  class Notifier {
    var flags: map<string, AtomicFlag?>

    /** No two channels share a flag. */
    ghost predicate Valid()
      reads this
    {
      forall c, d | c in flags && d in flags && c != d && flags[c] != null :: flags[c] != flags[d]
    }

    constructor ()
      ensures Valid() && flags == map[]
    {
      flags := map[];
    }

    /** The channel's flag ends up true. An existing flag stays the same object, so that whoever holds it sees the store. */
    method Update(channel: string)
      requires Valid() && (channel in flags ==> flags[channel] != null)
      modifies this, if channel in flags then {flags[channel]} else {}
      ensures Valid()
      ensures channel in flags && flags[channel] != null && flags[channel].value
      ensures channel in old(flags) ==> flags == old(flags)
      ensures channel !in old(flags) ==> fresh(flags[channel]) && flags == old(flags)[channel := flags[channel]]
    {
      if channel in flags {
        flags[channel].value := true;
      } else {
        var flag := new AtomicFlag(true);
        flags := flags[channel := flag];
      }
    }

    /** The very object that later updates of the channel store into; asking for an unknown channel leaves a null entry. */
    method PassPtr(channel: string) returns (flag: AtomicFlag?)
      requires Valid()
      modifies this
      ensures Valid()
      ensures flags == if channel in old(flags) then old(flags) else old(flags)[channel := null]
      ensures flag == flags[channel]
    {
      if channel !in flags {
        flags := flags[channel := null];
      }
      flag := flags[channel];
    }
  }
}
