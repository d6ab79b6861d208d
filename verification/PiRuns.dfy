// The control law over whole runs of the pipeline: whatever else happens, the controller's registers are the
// coupled images of one base probability.
module PiRuns {
  import opened DualPi2
  import opened IpBuffer
  import opened CapturedHandler
  import opened PdcpLayer
  import opened PdcpInduction
  import opened PdcpRuns
  import opened PiControl

  // The controller of a layer is in its law.
  ghost predicate InLaw(l: Layer) { Coupled(l.buf.q.cfg, l.buf.q.aqm.pi) && l.buf.q.cfg.k >= 0.0 }

  ghost predicate SamePi(b: Buffer, b': Buffer) { b'.q.cfg == b.q.cfg && b'.q.aqm.pi == b.q.aqm.pi }

  lemma {:induction false} PopNextKeepsPi(q: DualQ)
    ensures q.PopNext().0.cfg == q.cfg && q.PopNext().0.aqm.pi == q.aqm.pi
    decreases |q.lanes.l| + |q.lanes.c|
  {
    hide MarkProbability, Lanes.TakeHead;
    if q.HasPkts() && q.ServeOne().1.None? {
      PopNextKeepsPi(q.ServeOne().0);
    }
  }

  lemma {:induction false} FillKeepsPi(b: Buffer, bits: nat)
    ensures SamePi(b, b.Fill(bits).0)
    decreases bits
  {
    hide DualQ.PopNext;
    if bits > 0 && b.HasPkts() {
      PopNextKeepsPi(b.q);
      var (b1, next) := b.PopNext();
      if next.Some? && next.value.size <= bits {
        FillKeepsPi(b1, bits - next.value.size);
      }
    }
  }

  lemma CollectKeepsPi(l: Layer)
    ensures SamePi(l.buf, l.CollectDropped().buf)
  {
    hide Layer.CollectDropped, Handler.DropBlock;
    CollectInduction(l, (k: Layer) => SamePi(l.buf, k.buf));
  }

  lemma StepInLaw(l: Layer, t: real)
    requires InLaw(l)
    ensures InLaw(l.StepTo(t)) && l.StepTo(t).buf.q.cfg == l.buf.q.cfg
  {
    hide Layer.StepTo, Handler.Ingest, Pi.Update, Coupled, Handler.DropBlock, Handler.DropIngress;
    UpdateCouples(l.buf.q.cfg, l.buf.q.aqm.pi, Max(QueueDelay(l.buf.q.lanes.l, t), QueueDelay(l.buf.q.lanes.c, t)));
    StepInduction(l, t, (k: Layer) => InLaw(k) && k.buf.q.cfg == l.buf.q.cfg);
  }

  lemma TurnKeepsPi(l: Layer, bits: real, radio: Radio)
    requires bits > 0.0 && l.buf.HasPkts()
    ensures SamePi(l.buf, l.Turn(bits, radio).0.buf)
  {
    hide Buffer.Fill, Layer.CollectDropped, Handler.DropBlock, Handler.Push;
    FillKeepsPi(l.buf, bits.Floor);
    CollectKeepsPi(l.(buf := l.buf.GetPkts(bits.Floor).0, nextId := l.nextId + 1));
  }

  lemma ServeNewKeepsPi(l: Layer, bits: real, radio: Radio)
    requires l.Halts(bits)
    ensures SamePi(l.buf, l.ServeNew(bits, radio).0.buf)
  {
    hide Layer.Turn, Layer.ServeNew;
    var inv := (k: Layer) => SamePi(l.buf, k.buf);
    forall k: Layer | inv(k) && bits > 0.0 && k.buf.HasPkts()
      ensures inv(k.Turn(bits, radio).0)
    {
      TurnKeepsPi(k, bits, radio);
    }
    GrantInduction(l, bits, radio, inv);
  }

  lemma EventInLaw(l: Layer, e: Event)
    requires InLaw(l) && Enabled(l, e)
    ensures InLaw(Apply(l, e)) && Apply(l, e).buf.q.cfg == l.buf.q.cfg
  {
    hide Layer.StepTo, Layer.ServeNew, Coupled;
    match e
    case Step(t) => StepInLaw(l, t);
    case Grant(bits, radio) =>
      if !l.harq.IsPktReady() {
        ServeNewKeepsPi(l, bits, radio);
      }
    case _ =>
  }

  // RFC 9332 section 2.1, for a coupling factor k: one probability, its square, and k times it cut off at 1.
  ghost predicate SquareLaw(k: real, pi: Pi) {
    && 0.0 <= pi.pBase <= 1.0 && pi.pC == pi.pBase * pi.pBase && pi.pCl == Min(1.0, pi.pBase * k)
    && (pi.pCl < 1.0 && k > 0.0 ==> pi.pC == (pi.pCl / k) * (pi.pCl / k))
  }

  lemma CoupledMeans(cfg: Config, pi: Pi)
    requires Coupled(cfg, pi) && cfg.k > 0.0
    ensures SquareLaw(cfg.k, pi)
  {
    SquareOfQuotient(cfg.k, pi.pBase);
  }

  lemma StartsCoupled(cfg: Config)
    requires cfg.k >= 0.0
    ensures Coupled(cfg, Pi(0.0, 0.0, 0.0, 0.0))
  {
  }

  /** Over every run of the pipeline, with any coupling factor k > 0: the base probability is a probability, the
      classic one is its square, the coupled L4S one is k times it cut off at 1, and below that cut-off
      p_C = (p_CL / k)^2. */
  lemma ProbabilitiesStayCoupled(l: Layer, es: seq<Event>)
    requires Initial(l) && l.buf.q.cfg.k > 0.0 && CanRun(l, es)
    ensures SquareLaw(l.buf.q.cfg.k, PdcpRuns.Run(l, es).buf.q.aqm.pi)
  {
    hide PdcpRuns.Run, Coupled, SquareLaw, Enabled, Apply, CanRun;
    StartsCoupled(l.buf.q.cfg);
    var inv := (k: Layer) => InLaw(k) && k.buf.q.cfg == l.buf.q.cfg;
    forall k: Layer, e: Event | inv(k) && Enabled(k, e)
      ensures inv(Apply(k, e))
    {
      EventInLaw(k, e);
    }
    RunInduction(l, es, inv);
    CoupledMeans(l.buf.q.cfg, PdcpRuns.Run(l, es).buf.q.aqm.pi);
  }
}
