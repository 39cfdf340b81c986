/** `PeerId` of the signaling server: an opaque text, compared for equality. */
module Identity {
  type PeerId = string
}
