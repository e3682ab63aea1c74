/** The loading view's fields and its animation listeners. Every listener
    becomes a method of the class: an update method per animator tick, taking
    the animated value the animator delivers, and a Finish method per animator,
    which is the animator's last frame (the update at its end value, which a
    ValueAnimator always delivers before onAnimationEnd) followed by its end
    listeners in the order they were registered. Each method states its new
    State() as the matching ViewModel function of the old one, and keeps Valid()
    by the ViewModel lemma about that function. */
module SunBaby {
  import opened SunGeometry
  import opened Phases
  import opened ViewModel

  class SunBabyLoadingView {
    /** The trigonometric functions the view calls. */
    const trig: Trig

    /** The view's size, as getWidth() and getHeight() report it. */
    var width: nat
    var height: nat

    /** The values onLayout derives from the size (lineStartX, lineStartY,
        lineLength, textX, sunRadius, maxEyesTurn). */
    var geom: Geometry
    var turnOffsetX: real
    /** The snapshot of the sun's box (orectLeft, orectTop, orectRight, orectBottom). */
    var orect: Rect
    var once: bool
    var isDrawEyes: bool
    var offsetY: real
    var offsetSpin: real
    var offsetAngle: Angle
    var tempOffsetY: real
    var rectF: Rect

    /** Whether onLayout has run and started the animation driver. */
    var laidOut: bool
    /** The running animator of the main loop. */
    var mainPhase: Phase
    /** The running animator of the eye chain, if any. */
    var eyePhase: Option<Phase>

    function RayScene(): Scene
      reads this
    {
      Scene(width, geom, offsetY, offsetSpin, trig)
    }

    /** The fields the listeners share, as one value. */
    function State(): ViewState
      reads this
    {
      ViewState(width, height, geom, turnOffsetX, orect, once, isDrawEyes,
                offsetY, offsetAngle, tempOffsetY, rectF, laidOut, mainPhase, eyePhase)
    }

    /** The animators currently running (the ever-repeating spin aside). */
    function Running(): set<Phase>
      reads this
    {
      RunningAnimators(State())
    }

    ghost predicate Valid()
      reads this
    {
      Inv(State(), trig.asinDeg)
    }

    /** A view before its first layout, with the source's field initialisers. */
    constructor (trig: Trig)
      ensures Valid() && !laidOut && Running() == {}
      ensures offsetY == tempOffsetY == DEFAULT_OFFSET_Y
      ensures once && isDrawEyes && turnOffsetX == 0.0
    {
      this.trig := trig;
      width, height := 0, 0;
      geom := Geometry(0.0, 0.0, 0.0, 0.0, 0.0, 0.0);
      turnOffsetX := 0.0;
      orect := Rect(0.0, 0.0, 0.0, 0.0);
      once, isDrawEyes := true, true;
      offsetY, offsetSpin, offsetAngle := DEFAULT_OFFSET_Y, 0.0, Degrees(0.0);
      tempOffsetY := DEFAULT_OFFSET_Y;
      rectF := Rect(0.0, 0.0, 0.0, 0.0);
      laidOut, mainPhase, eyePhase := false, Rise1, None;
    }

    /** onLayout: derive the geometry from the size, set the sun's box and arc
        angle, and start the animation driver (spin and Rise1). */
    method OnLayout(w: nat, h: nat)
      requires Valid() && !laidOut
      modifies this`width, this`height, this`geom, this`rectF, this`offsetAngle,
               this`laidOut, this`mainPhase
      ensures State() == Laid(old(State()), w, h, trig.asinDeg)
      ensures Valid() && Running() == {Rise1}
    {
      LayoutKeepsInv(State(), w, h, trig.asinDeg);
      width, height := w, h;
      geom := Layout(w, h);
      CalcAndSetRectPoint();
      CalcOffsetAngle();
      InitAnimaDriver();
    }

    method CalcOffsetAngle()
      modifies this`offsetAngle
      ensures State() == AngleAtOffset(old(State()), trig.asinDeg)
    {
      offsetAngle := OffsetAngle(offsetY, geom.sunRadius, trig.asinDeg);
    }

    method CalcAndSetRectPoint()
      modifies this`rectF
      ensures State() == BoxAtOffset(old(State()))
    {
      var rectLeft := geom.lineStartX + geom.lineLength * 0.5 - geom.sunRadius;
      var rectTop := geom.lineStartY - geom.sunRadius + offsetY;
      var rectRight := geom.lineLength - rectLeft + 2.0 * geom.lineStartX;
      var rectBottom := rectTop + 2.0 * geom.sunRadius;
      rectF := Rect(rectLeft, rectTop, rectRight, rectBottom);
    }

    method InitAnimaDriver()
      modifies this`laidOut, this`mainPhase
      ensures State() == Driven(old(State()))
    {
      laidOut, mainPhase := true, Rise1;
    }

    /** A tick of the ray spin, which runs from 0 to 360 degrees and repeats. */
    method SpinUpdate(v: real)
      modifies this`offsetSpin
      ensures State() == old(State()) && offsetSpin == v
    {
      offsetSpin := v;
    }

    /** A tick of Rise1 (animated value 0 .. 12). */
    method Rise1Update(v: real)
      requires Valid() && Rise1 in Running() && 0.0 <= v <= RISE1_END
      modifies this`offsetY, this`rectF, this`offsetAngle
      ensures State() == Rise1Tick(old(State()), v, trig.asinDeg)
      ensures Valid() && Running() == old(Running())
    {
      Rise1TickKeepsInv(State(), v, trig.asinDeg);
      offsetY := DEFAULT_OFFSET_Y - v;
      CalcAndSetRectPoint();
      CalcOffsetAngle();
    }

    /** Rise1's last tick and its end listener. */
    method Rise1Finish()
      requires Valid() && Rise1 in Running()
      modifies this`offsetY, this`rectF, this`offsetAngle, this`tempOffsetY, this`orect, this`mainPhase
      ensures State() == Rise1End(Rise1Tick(old(State()), RISE1_END, trig.asinDeg))
      ensures Valid() && Running() == old(Running()) - {Rise1} + Successors(Rise1)
    {
      Rise1EndKeepsInv(State(), trig.asinDeg);
      Rise1Update(RISE1_END);
      tempOffsetY := offsetY;
      orect := rectF;
      mainPhase := RiseFast;
    }

    /** The squash and stretch of the sun's box in a RiseFast tick. */
    method SquashAndStretch(v: real)
      modifies this`rectF, this`orect, this`once
      ensures State() == WithBox(old(State()), RiseFastBox(old(BoxOf(State())), v))
    {
      var endValue := RISE_FAST_END;
      var middleValue := endValue * 0.5;
      if v < middleValue {
        rectF := Squashed(orect, v);
      } else {
        if once {
          orect := rectF;
          once := false;
        }
        rectF := Stretched(orect, v - middleValue);
      }
    }

    /** A tick of RiseFast (animated value 0 .. 30). */
    method RiseFastUpdate(v: real)
      requires Valid() && RiseFast in Running() && 0.0 <= v <= RISE_FAST_END
      modifies this`rectF, this`orect, this`once, this`offsetY, this`offsetAngle
      ensures State() == RiseFastTick(old(State()), v, trig.asinDeg)
      ensures Valid() && Running() == old(Running())
    {
      RiseFastTickKeepsInv(State(), v, trig.asinDeg);
      SquashAndStretch(v);
      offsetY := tempOffsetY - v;
      CalcOffsetAngle();
    }

    /** RiseFast's last tick and its end listeners. The eye chain of the
        previous cycle is over by then (Phases.EyeChainEndsWithinLoop). */
    method RiseFastFinish()
      requires Valid() && RiseFast in Running() && eyePhase == None
      modifies this`rectF, this`orect, this`once, this`offsetY, this`offsetAngle,
               this`tempOffsetY, this`eyePhase, this`mainPhase
      ensures State() == RiseFastEnd(RiseFastTick(old(State()), RISE_FAST_END, trig.asinDeg))
      ensures Valid() && Running() == old(Running()) - {RiseFast} + Successors(RiseFast)
    {
      RiseFastEndKeepsInv(State(), trig.asinDeg);
      RiseFastUpdate(RISE_FAST_END);
      tempOffsetY := offsetY;
      once := true;
      // playRisedEyesAnimator, then playRisedCyclingAnimator
      eyePhase := Some(Blink2);
      mainPhase := Rise2;
    }

    /** A tick of Rise2 (animated value 0 .. 18). */
    method Rise2Update(v: real)
      requires Valid() && Rise2 in Running() && 0.0 <= v <= RISE2_END
      modifies this`offsetY, this`rectF, this`offsetAngle
      ensures State() == Rise2Tick(old(State()), v, trig.asinDeg)
      ensures Valid() && Running() == old(Running())
    {
      Rise2TickKeepsInv(State(), v, trig.asinDeg);
      offsetY := tempOffsetY - v;
      CalcAndSetRectPoint();
      CalcOffsetAngle();
    }

    /** Rise2's last tick and its end listener. */
    method Rise2Finish()
      requires Valid() && Rise2 in Running()
      modifies this`offsetY, this`rectF, this`offsetAngle, this`tempOffsetY, this`orect, this`mainPhase
      ensures State() == Rise2End(Rise2Tick(old(State()), RISE2_END, trig.asinDeg))
      ensures Valid() && Running() == old(Running()) - {Rise2} + Successors(Rise2)
    {
      Rise2EndKeepsInv(State(), trig.asinDeg);
      Rise2Update(RISE2_END);
      tempOffsetY := offsetY;
      orect := rectF;
      mainPhase := Sink;
    }

    /** The narrowing and widening of the sun's box in a Sink tick. */
    method NarrowAndWiden(v: real, middleValue: real)
      modifies this`rectF, this`orect, this`once
      ensures State() == WithBox(old(State()), SinkBox(old(BoxOf(State())), v, middleValue))
    {
      if v < middleValue {
        rectF := SinkNarrowed(orect, v);
      } else {
        if once {
          orect := rectF;
          once := false;
        }
        rectF := SinkWidened(orect, v, middleValue);
      }
    }

    /** A tick of Sink (animated value 0 .. DEFAULT_OFFSET_Y - tempOffsetY). */
    method SinkUpdate(v: real)
      requires Valid() && Sink in Running() && 0.0 <= v <= DEFAULT_OFFSET_Y - tempOffsetY
      modifies this`rectF, this`orect, this`once, this`offsetY, this`offsetAngle
      ensures State() == SinkTick(old(State()), v, trig.asinDeg)
      ensures Valid() && Running() == old(Running())
    {
      SinkTickKeepsInv(State(), v, trig.asinDeg);
      var endValue := DEFAULT_OFFSET_Y - tempOffsetY;
      var middleValue := endValue * 0.5;
      NarrowAndWiden(v, middleValue);
      offsetY := tempOffsetY + v;
      CalcOffsetAngle();
    }

    /** Sink's last tick and its end listener. */
    method SinkFinish()
      requires Valid() && Sink in Running()
      modifies this`rectF, this`orect, this`once, this`offsetY, this`offsetAngle, this`mainPhase
      ensures State() == SinkEnd(SinkTick(old(State()), old(SinkEndValue(State())), trig.asinDeg))
      ensures Valid() && Running() == old(Running()) - {Sink} + Successors(Sink)
    {
      SinkEndKeepsInv(State(), trig.asinDeg);
      SinkUpdate(DEFAULT_OFFSET_Y - tempOffsetY);
      once := true;
      mainPhase := Rise1;
    }

    /** A tick of Blink2 or Blink1 (integer values 0 and 1). */
    method BlinkUpdate(v: int)
      requires Valid() && (Blink2 in Running() || Blink1 in Running())
      modifies this`isDrawEyes
      ensures State() == BlinkTick(old(State()), v)
      ensures Valid() && Running() == old(Running())
    {
      BlinkTickKeepsInv(State(), v, trig.asinDeg);
      if v == 0 {
        isDrawEyes := false;
      } else if v == 1 {
        isDrawEyes := true;
      }
    }

    /** Blink2's last tick and its end listener. */
    method Blink2Finish()
      requires Valid() && Blink2 in Running()
      modifies this`isDrawEyes, this`eyePhase
      ensures State() == Blink2End(BlinkTick(old(State()), 1))
      ensures Valid() && Running() == old(Running()) - {Blink2} + Successors(Blink2)
    {
      Blink2EndKeepsInv(State(), trig.asinDeg);
      BlinkUpdate(1);
      eyePhase := Some(TurnRight);
    }

    /** A tick of TurnRight (0 .. geom.maxEyesTurn) or TurnLeft (geom.maxEyesTurn .. 0). */
    method TurnEyesUpdate(v: real)
      requires Valid() && (TurnRight in Running() || TurnLeft in Running()) && 0.0 <= v <= geom.maxEyesTurn
      modifies this`turnOffsetX
      ensures State() == TurnTick(old(State()), v)
      ensures Valid() && Running() == old(Running())
    {
      TurnTickKeepsInv(State(), v, trig.asinDeg);
      turnOffsetX := v;
    }

    /** TurnRight's last tick and its end listener. */
    method TurnRightFinish()
      requires Valid() && TurnRight in Running()
      modifies this`turnOffsetX, this`eyePhase
      ensures State() == TurnRightEnd(TurnTick(old(State()), geom.maxEyesTurn))
      ensures Valid() && Running() == old(Running()) - {TurnRight} + Successors(TurnRight)
    {
      TurnRightEndKeepsInv(State(), trig.asinDeg);
      TurnEyesUpdate(geom.maxEyesTurn);
      eyePhase := Some(Blink1);
    }

    /** Blink1's last tick and its end listener. */
    method Blink1Finish()
      requires Valid() && Blink1 in Running()
      modifies this`isDrawEyes, this`eyePhase
      ensures State() == Blink1End(BlinkTick(old(State()), 1))
      ensures Valid() && Running() == old(Running()) - {Blink1} + Successors(Blink1)
    {
      Blink1EndKeepsInv(State(), trig.asinDeg);
      BlinkUpdate(1);
      eyePhase := Some(TurnLeft);
    }

    /** TurnLeft's last tick and its end listener. */
    method TurnLeftFinish()
      requires Valid() && TurnLeft in Running()
      modifies this`turnOffsetX, this`eyePhase
      ensures State() == TurnLeftEnd(TurnTick(old(State()), 0.0))
      ensures Valid() && Running() == old(Running()) - {TurnLeft} + Successors(TurnLeft)
    {
      TurnLeftEndKeepsInv(State(), trig.asinDeg);
      TurnEyesUpdate(0.0);
      eyePhase := None;
    }

    /** The arc onDraw draws in rectF, or None where its angles are NaN: the
        angles are numbers exactly when the offset is within the sun's radius.
        With the view at least 160 wide that always holds; narrower, the
        offset -40 at the start of Sink is outside it; with a zero width there
        is never an arc. */
    function SunArc(): (r: Option<Arc>)
      reads this
      requires Valid()
      ensures laidOut ==> (r.Some? <==> geom.sunRadius > 0.0 && -geom.sunRadius <= offsetY <= geom.sunRadius)
      ensures laidOut && width >= 160 ==> r.Some?
      ensures laidOut && 0 < width < 160 && offsetY == RISE2_BASELINE ==> r == None
      ensures laidOut && width == 0 ==> r == None
      ensures r.Some? ==> r.value.startAngle + r.value.sweepAngle / 2.0 == -90.0
    {
      ArcSpan(offsetAngle)
    }

    /** The eyes onDraw draws: only when the blink flag is set and the sun's
        centre is above the horizon. */
    function DrawnEyes(): (r: Option<Eyes>)
      reads this
      requires Valid()
      ensures r.Some? <==> isDrawEyes && offsetY < 0.0
      ensures r.Some? ==> r.value.leftY == r.value.rightY
      ensures r.Some? ==> r.value.rightX - r.value.leftX == geom.maxEyesTurn
      ensures r.Some? ==> r.value.rightX == width as real / 2.0 + turnOffsetX
      ensures mainPhase == Rise1 ==> r == None
      ensures mainPhase == Rise2 ==> (r.Some? <==> isDrawEyes)
    {
      if isDrawEyes then SunEyes(width, geom, offsetY, turnOffsetX) else None
    }

    /** drawSunshine: the rays drawn this frame, in loop order. */
    method DrawSunshine() returns (drawn: seq<Ray>)
      ensures drawn == DrawnRays(RayScene(), RayAngles())
    {
      drawn := [];
      var a := 0;
      while a <= 360
        invariant 0 <= a <= 405 && a % SUNSHINE_SEPARATIO_ANGLE == 0
        invariant drawn == DrawnRays(RayScene(), RayAngles()[..a / SUNSHINE_SEPARATIO_ANGLE])
      {
        var c := trig.cosDeg(a as real + offsetSpin);
        var s := trig.sinDeg(a as real + offsetSpin);
        var sunshineStartX := c * (geom.sunRadius + SPACE_SUNSHINE + SUN_STROKE_WIDTH) + width as real * 0.5;
        var sunshineStartY := s * (geom.sunRadius + SPACE_SUNSHINE + SUN_STROKE_WIDTH) + offsetY + geom.lineStartY;
        var sunshineStopX := c * (geom.sunRadius + SPACE_SUNSHINE + SUNSHINE_LINE_LENGTH + SUN_STROKE_WIDTH) + width as real * 0.5;
        var sunshineStopY := s * (geom.sunRadius + SPACE_SUNSHINE + SUNSHINE_LINE_LENGTH + SUN_STROKE_WIDTH) + offsetY + geom.lineStartY;
        ghost var k := a / SUNSHINE_SEPARATIO_ANGLE;
        assert RayAngles()[..k + 1][..k] == RayAngles()[..k];
        assert Ray(sunshineStartX, sunshineStartY, sunshineStopX, sunshineStopY) == RayAt(RayScene(), a);
        if sunshineStartY <= geom.lineStartY && sunshineStopY <= geom.lineStartY {
          drawn := drawn + [Ray(sunshineStartX, sunshineStartY, sunshineStopX, sunshineStopY)];
        }
        a := a + SUNSHINE_SEPARATIO_ANGLE;
      }
      assert RayAngles()[..9] == RayAngles();
    }
  }
}
