// The mock dashboard's zoom for mid-sized windows (src/hooks/useViewportScale.ts).

module ViewportScale {
  /** The width the dashboard is laid out for. */
  const DesignWidth := 1100
  /** Below this width the dashboard is shown unscaled. */
  const MobileBreakpoint := 768

  datatype Scale = Scale(zoom: real, isScaled: bool)

  /** `getScale` for a window `vw` pixels wide: wide and narrow windows are
      unscaled; in between, the design width is shrunk to the window. */
  function GetScale(vw: int): (r: Scale)
    ensures r.isScaled <==> MobileBreakpoint <= vw < DesignWidth
    ensures !r.isScaled ==> r.zoom == 1.0
    ensures r.isScaled ==> r.zoom * DesignWidth as real == vw as real
    ensures r.isScaled ==> MobileBreakpoint as real / DesignWidth as real <= r.zoom < 1.0
  {
    if vw >= DesignWidth || vw < MobileBreakpoint then Scale(1.0, false)
    else Scale(vw as real / DesignWidth as real, true)
  }

  /** A wider window is never zoomed out further. */
  lemma ZoomMonotone(v: int, w: int)
    requires MobileBreakpoint <= v <= w < DesignWidth
    ensures GetScale(v).zoom <= GetScale(w).zoom
  {
  }
}
