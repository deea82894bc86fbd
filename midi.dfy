// The two halves of a MIDI status byte, shared by the audio player's MIDI input and
// the Launchkey driver.
module Midi {

  /** The channel of a status byte: its low nibble (status & 0x0F). */
  function Channel(status: nat): (c: nat)
    ensures c < 16 && status == Command(status) + c
  {
    status % 16
  }

  /** The command of a status byte: its high nibble (status & 0xF0). */
  function Command(status: nat): (c: nat)
    ensures c % 16 == 0 && c <= status < c + 16
  {
    status / 16 * 16
  }
}
