/**
 * The test motor of the library's test suite: a motor that records every
 * command and snaps to a commanded position at once. The mechanisms are
 * modelled against this concrete motor.
 */
module Motors {
  import opened Wrappers

  class TestMotor {
    var duty: real
    var velocity: real
    var position: real
    var current: real
    var forwardLimit: bool
    var reverseLimit: bool
    /** `None` stands for Java's NaN: no feedforward was ever sent. */
    var lastFeedforward: Option<real>

    /** A fresh motor: numeric fields 0, switches open, feedforward unset. */
    constructor ()
      ensures duty == 0.0 && velocity == 0.0 && position == 0.0 && current == 0.0
      ensures !forwardLimit && !reverseLimit
      ensures lastFeedforward == None
    {
      duty, velocity, position, current := 0.0, 0.0, 0.0, 0.0;
      forwardLimit, reverseLimit := false, false;
      lastFeedforward := None;
    }

    method SetVelocity(speed: real)
      modifies this
      ensures velocity == speed
      ensures duty == old(duty) && position == old(position) && current == old(current)
      ensures forwardLimit == old(forwardLimit) && reverseLimit == old(reverseLimit)
      ensures lastFeedforward == old(lastFeedforward)
    {
      velocity := speed;
    }

    method SetDutyCycle(dutyCycle: real)
      modifies this
      ensures duty == dutyCycle
      ensures velocity == old(velocity) && position == old(position) && current == old(current)
      ensures forwardLimit == old(forwardLimit) && reverseLimit == old(reverseLimit)
      ensures lastFeedforward == old(lastFeedforward)
    {
      duty := dutyCycle;
    }

    /** Position command with feedforward: snaps to the position and records the feedforward. */
    method SetPositionWithFeedforward(pos: real, feedforward: real)
      modifies this
      ensures position == pos && lastFeedforward == Some(feedforward)
      ensures duty == old(duty) && velocity == old(velocity) && current == old(current)
      ensures forwardLimit == old(forwardLimit) && reverseLimit == old(reverseLimit)
    {
      position := pos;
      lastFeedforward := Some(feedforward);
    }

    /** Position command without feedforward: the recorded feedforward is kept. */
    method SetPosition(pos: real)
      modifies this
      ensures position == pos
      ensures duty == old(duty) && velocity == old(velocity) && current == old(current)
      ensures forwardLimit == old(forwardLimit) && reverseLimit == old(reverseLimit)
      ensures lastFeedforward == old(lastFeedforward)
    {
      position := pos;
    }

    method SetForwardLimit(value: bool)
      modifies this
      ensures forwardLimit == value
      ensures duty == old(duty) && velocity == old(velocity) && position == old(position)
      ensures current == old(current) && reverseLimit == old(reverseLimit)
      ensures lastFeedforward == old(lastFeedforward)
    {
      forwardLimit := value;
    }

    method SetReverseLimit(value: bool)
      modifies this
      ensures reverseLimit == value
      ensures duty == old(duty) && velocity == old(velocity) && position == old(position)
      ensures current == old(current) && forwardLimit == old(forwardLimit)
      ensures lastFeedforward == old(lastFeedforward)
    {
      reverseLimit := value;
    }

    function GetPosition(): real reads this { position }
    function GetVelocity(): real reads this { velocity }
    function GetCurrent(): real reads this { current }
    function GetForwardLimitSwitch(): bool reads this { forwardLimit }
    function GetReverseLimitSwitch(): bool reads this { reverseLimit }
  }
}
