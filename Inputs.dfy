/**
 * Keyboard and mouse state (src/input/Input.ts): the held-key set, the
 * one-shot set of keys pressed since they were last consumed, and the mouse
 * movement accumulated while the pointer is locked. The document event
 * listeners become the methods `KeyDown`, `KeyUp`, `PointerLockChange` and
 * `MouseMove`.
 */
module Inputs {

  class Input {
    var pressed: set<string>
    var justPressed: set<string>
    var pointerLocked: bool
    var mouseDX: real
    var mouseDY: real

    constructor ()
      ensures pressed == {} && justPressed == {}
      ensures !pointerLocked && mouseDX == 0.0 && mouseDY == 0.0
    {
      pressed := {};
      justPressed := {};
      pointerLocked := false;
      mouseDX := 0.0;
      mouseDY := 0.0;
    }

    /** `keydown`: the key is held; it is also newly pressed unless the event is an auto-repeat. */
    method KeyDown(code: string, repeat: bool)
      modifies this
      ensures pressed == old(pressed) + {code}
      ensures justPressed == if repeat then old(justPressed) else old(justPressed) + {code}
      ensures pointerLocked == old(pointerLocked) && mouseDX == old(mouseDX) && mouseDY == old(mouseDY)
    {
      if !repeat {
        justPressed := justPressed + {code};
      }
      pressed := pressed + {code};
    }

    /** `keyup`: the key is no longer held; a pending press stays pending. */
    method KeyUp(code: string)
      modifies this
      ensures pressed == old(pressed) - {code}
      ensures justPressed == old(justPressed)
      ensures pointerLocked == old(pointerLocked) && mouseDX == old(mouseDX) && mouseDY == old(mouseDY)
    {
      pressed := pressed - {code};
    }

    /** `pointerlockchange`: locked exactly when the document's lock element is the canvas. */
    method PointerLockChange(lockedToElement: bool)
      modifies this
      ensures pointerLocked == lockedToElement
      ensures pressed == old(pressed) && justPressed == old(justPressed)
      ensures mouseDX == old(mouseDX) && mouseDY == old(mouseDY)
    {
      pointerLocked := lockedToElement;
    }

    /** `mousemove`: the movement is added to the accumulators only while the pointer is locked. */
    method MouseMove(movementX: real, movementY: real)
      modifies this
      ensures mouseDX == if old(pointerLocked) then old(mouseDX) + movementX else old(mouseDX)
      ensures mouseDY == if old(pointerLocked) then old(mouseDY) + movementY else old(mouseDY)
      ensures pressed == old(pressed) && justPressed == old(justPressed) && pointerLocked == old(pointerLocked)
    {
      if !pointerLocked {
        return;
      }
      mouseDX := mouseDX + movementX;
      mouseDY := mouseDY + movementY;
    }

    /** `isDown(code)` */
    predicate IsDown(code: string)
      reads this
    {
      code in pressed
    }

    /**
     * `consumePressed(code)`: reports a pending press of `code` and clears it, so
     * until the next non-repeat keydown of `code` every further call reports false.
     */
    method ConsumePressed(code: string) returns (r: bool)
      modifies this
      ensures r <==> code in old(justPressed)
      ensures justPressed == old(justPressed) - {code}
      ensures code !in justPressed
      ensures pressed == old(pressed) && pointerLocked == old(pointerLocked)
      ensures mouseDX == old(mouseDX) && mouseDY == old(mouseDY)
    {
      if code !in justPressed {
        return false;
      }
      justPressed := justPressed - {code};
      return true;
    }

    /** `consumeMouseDelta()`: the accumulated movement, after which both accumulators are 0. */
    method ConsumeMouseDelta() returns (dx: real, dy: real)
      modifies this
      ensures dx == old(mouseDX) && dy == old(mouseDY)
      ensures mouseDX == 0.0 && mouseDY == 0.0
      ensures pressed == old(pressed) && justPressed == old(justPressed) && pointerLocked == old(pointerLocked)
    {
      dx, dy := mouseDX, mouseDY;
      mouseDX := 0.0;
      mouseDY := 0.0;
    }
  }

  /** One non-repeat keydown is consumed at most once: of two calls in a row, the second reports false. */
  method ConsumeTwice(input: Input, code: string) returns (first: bool, second: bool)
    modifies input
    ensures first <==> code in old(input.justPressed)
    ensures !second
    ensures input.justPressed == old(input.justPressed) - {code} && input.pressed == old(input.pressed)
  {
    first := input.ConsumePressed(code);
    second := input.ConsumePressed(code);
  }

  /** Of two deltas read in a row, the second is (0, 0). */
  method DrainTwice(input: Input) returns (dx: real, dy: real, dx2: real, dy2: real)
    modifies input
    ensures dx == old(input.mouseDX) && dy == old(input.mouseDY)
    ensures dx2 == 0.0 && dy2 == 0.0
  {
    dx, dy := input.ConsumeMouseDelta();
    dx2, dy2 := input.ConsumeMouseDelta();
  }
}
