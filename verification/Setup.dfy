/** Connections that complete their handshake meet what the end-to-end results ask of their codecs. */
module Setup {
  import opened FrameCodec
  import opened CodecLaws
  import L = ClientLifecycle
  import E = EndToEnd
  import H = Handshake

  /** The handshake of connection `g` went through these steps, and both ends kept the codecs it gave them. */
  ghost predicate SetUpBy(cfg: E.Config, g: E.Gen, h: H.Config, steps: seq<H.Step>) {
    var s := H.Run(h, steps);
    && H.Undisturbed(h) && h.lib == cfg.lib && s.client.Live? && s.server.InTable?
    && cfg.clientCodec(g) == s.client.codec
    && cfg.conn(g).lib == h.lib && cfg.conn(g).codec == s.server.codec
    && cfg.conn(g).ecdh == h.serverEcdh && cfg.conn(g).outCodec == H.OutCodec(h, s.server.codec)
  }

  lemma OneConnection(cfg: E.Config, g: E.Gen, h: H.Config, steps: seq<H.Step>)
    requires SetUpBy(cfg, g, h, steps)
    ensures Lawful(cfg.lib) && cfg.conn(g).lib == cfg.lib
    ensures SameKeys(cfg.clientCodec(g), cfg.conn(g).codec) && SameKeys(cfg.conn(g).outCodec, cfg.clientCodec(g))
  {
    H.EndsHoldTheirCodecs(h, steps);
    H.EndsAgree(h);
  }

  /** If every connection was set up by its own handshake, the composed system is validly configured. */
  lemma HandshakesSuffice(cfg: E.Config, h: E.Gen -> H.Config, steps: E.Gen -> seq<H.Step>)
    requires L.ValidConfig(cfg.client) && forall g :: SetUpBy(cfg, g, h(g), steps(g))
    ensures E.ValidConfig(cfg)
  {
    forall g: E.Gen
      ensures Lawful(cfg.lib) && cfg.conn(g).lib == cfg.lib
      ensures SameKeys(cfg.clientCodec(g), cfg.conn(g).codec) && SameKeys(cfg.conn(g).outCodec, cfg.clientCodec(g))
    {
      OneConnection(cfg, g, h(g), steps(g));
    }
    assert Lawful(cfg.lib) by {
      OneConnection(cfg, 0, h(0), steps(0));
    }
  }
}
